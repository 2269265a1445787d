/** The lifecycle stage of an escrow and its one-byte storage code. */
module Stages {
  import opened Wrappers
  import opened Primitives
  import opened Errors

  /** FundsDeposited -> EscrowComplete, or FundsDeposited -> PullBackComplete. */
  datatype Stage = FundsDeposited | EscrowComplete | PullBackComplete

  /** `Stage::to_code`: the byte stored in `State.stage`. Never 0, the
      value of a default (zeroed) record. */
  function ToCode(s: Stage): (code: uint8)
    ensures 1 <= code <= 3
  {
    match s
    case FundsDeposited => 1
    case EscrowComplete => 2
    case PullBackComplete => 3
  }

  /** `Stage::from`: defensive decoding of a stored byte; every byte other
      than the three codes is rejected with `StageInvalid`. */
  function FromCode(code: uint8): (r: Result<Stage, ErrorCode>)
    ensures r.Ok? <==> 1 <= code <= 3
    ensures r.Ok? ==> ToCode(r.value) == code
    ensures r.Err? ==> r.error == StageInvalid
  {
    match code
    case 1 => Ok(FundsDeposited)
    case 2 => Ok(EscrowComplete)
    case 3 => Ok(PullBackComplete)
    case _ => Err(StageInvalid)
  }

  /** Decoding inverts encoding, for every stage. */
  lemma FromCodeToCode(s: Stage)
    ensures FromCode(ToCode(s)) == Ok(s)
  {
  }

  /** The three codes are distinct. */
  lemma ToCodeInjective(a: Stage, b: Stage)
    requires ToCode(a) == ToCode(b)
    ensures a == b
  {
  }

  /** The stage byte of a default record (0) is not a stage. */
  lemma DefaultCodeRejected()
    ensures FromCode(0) == Err(StageInvalid)
  {
  }
}
