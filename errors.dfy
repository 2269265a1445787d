/** The program's own error codes (`ErrorCode`, lib.rs). Only `StageInvalid`
    is ever raised; the other three are declared but unused. */
module Errors {

  datatype ErrorCode =
    | WalletToWithdrawFromInvalid
    | InvalidStateIdx
    | DelegateNotSetCorrectly
    | StageInvalid
}
