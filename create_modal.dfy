/**
 * The stateful part of `CreateModal`: its state cells, their setters, the
 * wallet-user effect and the submission flag that `handleCreate` raises and
 * clears around the awaited factory call.
 */
module CreateModal {
  import opened Wrappers
  import opened CreateForm

  /** How the awaited factory `create` settles; the environment decides. */
  datatype Settlement = Resolved | Rejected(reason: string)

  /** How `handleCreate`'s promise ends. */
  datatype Completion = Completed | Threw(fault: Fault)

  /** The completion of a submission whose derivation gave `call` and whose factory call settled as `settle`. */
  function Completes(call: Result<CreateArgs, Fault>, settle: Settlement): (c: Completion)
    ensures c == Completed <==> call.Success? && settle == Resolved
    ensures call.Failure? ==> c == Threw(call.error)
    ensures call.Success? && settle.Rejected? ==> c == Threw(CreateRejected(settle.reason))
  {
    match call
    case Failure(e) => Threw(e)
    case Success(_) =>
      match settle
      case Resolved => Completed
      case Rejected(reason) => Threw(CreateRejected(reason))
  }

  class CreateModalState {
    var isCreating: bool
    var selectedIdx: int
    var selectedBonusIdx: int
    var expiry: int
    var lockingPeriodDays: int
    var feeRecipient: string
    var penalty: int
    var fee: int
    var n: int

    /** The draft held by the state cells. */
    function Snapshot(): Draft
      reads this
    {
      Draft(selectedIdx, selectedBonusIdx, expiry, lockingPeriodDays, feeRecipient, penalty, fee, n)
    }

    /** `CreateModal` mounts idle, with the default draft and the connected user as recipient. */
    constructor (user: string, expiry: int)
      ensures Snapshot() == DefaultDraft(user, expiry)
      ensures !isCreating
    {
      isCreating := false;
      selectedIdx := 0;
      selectedBonusIdx := -1;
      this.expiry := expiry;
      lockingPeriodDays := 30;
      feeRecipient := user;
      penalty := 20;
      fee := 20;
      n := 1;
    }

    /** The Create button is disabled exactly when the draft breaks one of its invariants. */
    function CreateDisabled(isAddress: string -> bool, now: int): (disabled: bool)
      reads this
      ensures disabled <==> !ValidDraft(Snapshot(), isAddress, now)
      ensures disabled <==> ErrorMessage(Snapshot(), isAddress, now).Some?
    {
      ErrorMessage(Snapshot(), isAddress, now) != None
    }

    method SetSelectedIdx(idx: int)
      modifies this`selectedIdx
      ensures Snapshot() == old(Snapshot()).(selectedIdx := idx)
    {
      selectedIdx := idx;
    }

    method SetSelectedBonusIdx(idx: int)
      modifies this`selectedBonusIdx
      ensures Snapshot() == old(Snapshot()).(selectedBonusIdx := idx)
    {
      selectedBonusIdx := idx;
    }

    method SetExpiry(t: int)
      modifies this`expiry
      ensures Snapshot() == old(Snapshot()).(expiry := t)
    {
      expiry := t;
    }

    method SetLockingDays(days: int)
      modifies this`lockingPeriodDays
      ensures Snapshot() == old(Snapshot()).(lockingPeriodDays := days)
    {
      lockingPeriodDays := days;
    }

    method SetFeeRecipient(recipient: string)
      modifies this`feeRecipient
      ensures Snapshot() == old(Snapshot()).(feeRecipient := recipient)
    {
      feeRecipient := recipient;
    }

    method SetPenalty(p: int)
      modifies this`penalty
      ensures Snapshot() == old(Snapshot()).(penalty := p)
    {
      penalty := p;
    }

    method SetFee(f: int)
      modifies this`fee
      ensures Snapshot() == old(Snapshot()).(fee := f)
    {
      fee := f;
    }

    method SetN(v: int)
      modifies this`n
      ensures Snapshot() == old(Snapshot()).(n := v)
    {
      n := v;
    }

    /** The effect run when the wallet user changes. */
    method OnUserChanged(user: string)
      modifies this`feeRecipient
      ensures Snapshot() == WithWalletUser(old(Snapshot()), user)
    {
      if user != "" {
        feeRecipient := user;
      }
    }

    /**
     * First half of `handleCreate`: raise the flag, then derive the arguments.
     * The flag is up for as long as the factory call is pending, provided no
     * second submission overlaps it (the button stays enabled while it is up).
     */
    method BeginCreate(tokens: seq<Token>) returns (call: Result<CreateArgs, Fault>)
      modifies this`isCreating
      ensures isCreating
      ensures call == CreateCall(Snapshot(), tokens)
      ensures Snapshot() == old(Snapshot())
    {
      isCreating := true;
      call := CreateCall(Snapshot(), tokens);
    }

    /** The `finally` block: the flag is cleared whatever the outcome. */
    method FinishCreate()
      modifies this`isCreating
      ensures !isCreating
      ensures Snapshot() == old(Snapshot())
    {
      isCreating := false;
    }

    /**
     * `handleCreate` as written. The bonus lookup is outside the `try`, so when
     * it throws the flag stays raised; every other outcome, including a
     * rejected factory call, clears it. The draft is never changed.
     */
    method HandleCreate(tokens: seq<Token>, settle: Settlement) returns (call: Result<CreateArgs, Fault>, done: Completion)
      modifies this`isCreating
      ensures call == CreateCall(Snapshot(), tokens)
      ensures isCreating <==> call == Failure(BonusTokenUndefined)
      ensures call.Success? ==> !isCreating
      ensures done == Completes(call, settle)
      ensures Snapshot() == old(Snapshot())
    {
      call := BeginCreate(tokens);
      if call == Failure(BonusTokenUndefined) {
        // thrown before the try block: no finally runs
        done := Threw(BonusTokenUndefined);
        return;
      }
      // try { await create(...) } finally { setIsCreating(false) }
      done := Completes(call, settle);
      FinishCreate();
    }

    /** `handleCreate` with the bonus lookup moved inside the `try`: the flag is always cleared. */
    method HandleCreateReleasing(tokens: seq<Token>, settle: Settlement) returns (call: Result<CreateArgs, Fault>, done: Completion)
      modifies this`isCreating
      ensures call == CreateCall(Snapshot(), tokens)
      ensures !isCreating
      ensures done == Completes(call, settle)
      ensures Snapshot() == old(Snapshot())
    {
      call := BeginCreate(tokens);
      done := Completes(call, settle);
      FinishCreate();
    }
  }

  /**
   * A bonus index left over from a longer token list: on a one-token network the
   * candidates are empty, so index 0 is undefined and the lookup throws.
   */
  lemma StaleBonusIndexThrowsBeforeTry(user: string, expiry: int)
    ensures var tokens := [Token("0x1", "A")];
      CreateCall(DefaultDraft(user, expiry).(selectedBonusIdx := 0), tokens) == Failure(BonusTokenUndefined)
  {
  }
}
