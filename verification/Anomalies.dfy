/** What the login handler logs about an assertion, and what one more login adds to the tallies. */
module Anomalies {
  import opened Domain
  import opened Conversions
  import T = Tables

  datatype Warning =
    | CounterReset(row: Uuid, user: Uuid, storedCount: Uint32)
    | AaguidMismatch(row: Uuid, user: Uuid, storedId: Uuid, assertedId: Uuid)
    | BackupFlagsChanged(row: Uuid, user: Uuid, storedBe: bool, storedBs: bool, assertedBe: bool, assertedBs: bool)

  // ----- one assertion -----

  function ResetWarning(stored: Credential, asserted: LibCredential): seq<Warning> {
    if stored.signCount > 0
        && asserted.signCount == 0 then [CounterReset(stored.id, stored.userId, stored.signCount)] else []
  }

  /** An AAGUID of the wrong length cannot be parsed and is passed over. */
  function AaguidWarning(stored: Credential, asserted: LibCredential): seq<Warning> {
    if stored.aaguid.Some? && UuidFromBytes(asserted.aaguid).Ok?
        && UuidFromBytes(asserted.aaguid).value != stored.aaguid.value
    then [AaguidMismatch(stored.id, stored.userId, stored.aaguid.value, UuidFromBytes(asserted.aaguid).value)]
    else []
  }

  function FlagsWarning(stored: Credential, asserted: LibCredential): seq<Warning> {
    if stored.backupEligible != asserted.backupEligible || stored.backupState != asserted.backupState
    then [BackupFlagsChanged(stored.id, stored.userId, stored.backupEligible, stored.backupState,
        asserted.backupEligible, asserted.backupState)]
    else []
  }

  function Warnings(stored: Credential, asserted: LibCredential): seq<Warning> {
    ResetWarning(stored, asserted) + AaguidWarning(stored, asserted) + FlagsWarning(stored, asserted)
  }

  class Logger {
    var warnings: seq<Warning>

    constructor ()
      ensures warnings == []
    {
      warnings := [];
    }

    method Warn(w: Warning)
      modifies this
      ensures warnings == old(warnings) + [w]
    {
      warnings := warnings + [w];
    }

    /** AuthHandler.recordCounterAnomalies. */
    method RecordCounterAnomalies(stored: Credential, asserted: LibCredential)
      modifies this
      ensures warnings == old(warnings) + Warnings(stored, asserted)
    {
      var newCount := asserted.signCount;
      if stored.signCount > 0 && newCount == 0 {
        Warn(CounterReset(stored.id, stored.userId, stored.signCount));
      }
      if stored.aaguid.Some? && |asserted.aaguid| > 0 {
        var storedId := stored.aaguid.value;
        var parsed := UuidFromBytes(asserted.aaguid);
        if parsed.Ok? && storedId != parsed.value {
          Warn(AaguidMismatch(stored.id, stored.userId, storedId, parsed.value));
        }
      }
      if stored.backupEligible != asserted.backupEligible || stored.backupState != asserted.backupState {
        Warn(BackupFlagsChanged(stored.id, stored.userId, stored.backupEligible, stored.backupState,
                                asserted.backupEligible, asserted.backupState));
      }
    }
  }

  // ----- many logins on one credential -----

  /** What the authenticator reported over the credential's life: registration first, then each login. */
  datatype Observation = Observation(count: Uint32, be: bool, bs: bool)

  function Observations(registered: Row, seen: seq<LibCredential>): (obs: seq<Observation>)
    ensures |obs| == |seen| + 1
  {
    [Observation(T.Scan(registered).signCount, registered.backupEligible, registered.backupState)] +
    seq(|seen|, i requires 0 <= i < |seen| => Observation(seen[i].signCount, seen[i].backupEligible,
        seen[i].backupState))
  }

  /** How many adjacent pairs of the list changed their backup flags. */
  function FlagChanges(obs: seq<Observation>): nat {
    if |obs| <= 1 then 0
    else
      var a, b := obs[|obs| - 2], obs[|obs| - 1];
      FlagChanges(obs[..|obs| - 1]) + (if a.be != b.be || a.bs != b.bs then 1 else 0)
  }

  /** How many adjacent pairs of the list fell from a nonzero count to zero. */
  function Drops(obs: seq<Observation>): nat {
    if |obs| <= 1 then 0
    else
      var a, b := obs[|obs| - 2], obs[|obs| - 1];
      Drops(obs[..|obs| - 1]) + (if a.count > 0 && b.count == 0 then 1 else 0)
  }

  /** How many logins reported a well-formed AAGUID other than the registered one. */
  function Mismatches(registered: Option<Uuid>, seen: seq<LibCredential>): nat {
    if seen == [] || registered.None? then 0
    else
      var id := UuidFromBytes(seen[|seen| - 1].aaguid);
      Mismatches(registered, seen[..|seen| - 1]) + (if id.Ok? && id.value != registered.value then 1 else 0)
  }

  datatype Kind = Reset | Mismatch | Flip

  function KindOf(w: Warning): Kind {
    match w
    case CounterReset(_, _, _) => Reset
    case AaguidMismatch(_, _, _, _) => Mismatch
    case BackupFlagsChanged(_, _, _, _, _, _) => Flip
  }

  function Tally(log: seq<Warning>, kind: Kind): nat {
    if log == [] then 0
    else Tally(log[..|log| - 1], kind) + (if KindOf(log[|log| - 1]) == kind then 1 else 0)
  }

  lemma {:induction false} TallyConcat(a: seq<Warning>, b: seq<Warning>, kind: Kind)
    ensures Tally(a + b, kind) == Tally(a, kind) + Tally(b, kind)
  {
    if b == [] {
      assert a + b == a;
    } else {
      assert (a + b)[..|a + b| - 1] == a + b[..|b| - 1];
      TallyConcat(a, b[..|b| - 1], kind);
    }
  }

  lemma TallyShort(log: seq<Warning>, kind: Kind)
    requires |log| <= 1
    ensures Tally(log, kind) == if |log| == 1 && KindOf(log[0]) == kind then 1 else 0
  {
    if |log| == 1 {
      assert log[..0] == [];
    }
  }

  lemma TallyWarnings(stored: Credential, asserted: LibCredential, kind: Kind)
    ensures Tally(Warnings(stored, asserted), kind) ==
              (match kind
               case Reset => |ResetWarning(stored, asserted)|
               case Mismatch => |AaguidWarning(stored, asserted)|
               case Flip => |FlagsWarning(stored, asserted)|)
  {
    hide Tally;
    var a, b, c := ResetWarning(stored, asserted), AaguidWarning(stored, asserted), FlagsWarning(stored, asserted);
    TallyConcat(a + b, c, kind);
    TallyConcat(a, b, kind);
    TallyShort(a, kind);
    TallyShort(b, kind);
    TallyShort(c, kind);
  }

  /**
   * A login that compares with the last observation, and with the AAGUID of registration, adds exactly
   * the warnings its own observation calls for.
   */
  lemma {:induction false} LoginAdds(stored: Credential, registered: Row, seen: seq<LibCredential>, last: LibCredential)
    requires Observation(stored.signCount, stored.backupEligible, stored.backupState)
               == Observations(registered, seen)[|seen|]
    requires stored.aaguid == registered.aaguid
    ensures var obs, obs', added := Observations(registered, seen), Observations(registered, seen + [last]),
              Warnings(stored, last);
            && Tally(added, Reset) == Drops(obs') - Drops(obs)
            && Tally(added, Mismatch)
                 == Mismatches(registered.aaguid, seen + [last]) - Mismatches(registered.aaguid, seen)
            && Tally(added, Flip) == FlagChanges(obs') - FlagChanges(obs)
  {
    hide Tally, Warnings, T.Scan;
    var obs, obs' := Observations(registered, seen), Observations(registered, seen + [last]);
    assert obs'[..|obs'| - 1] == obs && (seen + [last])[..|seen|] == seen;
    TallyWarnings(stored, last, Reset);
    TallyWarnings(stored, last, Mismatch);
    TallyWarnings(stored, last, Flip);
  }

  lemma TallyAll(log: seq<Warning>, added: seq<Warning>)
    ensures forall kind :: Tally(log + added, kind) == Tally(log, kind) + Tally(added, kind)
  {
    forall kind ensures Tally(log + added, kind) == Tally(log, kind) + Tally(added, kind) {
      TallyConcat(log, added, kind);
    }
  }

  lemma NothingLogged()
    ensures forall kind :: Tally([], kind) == 0
  {
  }
}
