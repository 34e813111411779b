/** The one-time transition from bootstrap to interactive administration, and its journal. */
module Access {
  import opened Runs

  /** The journal is a text. */
  const PENDING: string := "pending:"

  const COMPLETE: string := "complete\n"

  predicate HexDigit(c: char) {
    '0' <= c <= '9' || 'a' <= c <= 'f' || 'A' <= c <= 'F'
  }

  /** The digest of a password hash, as 64 hexadecimal digits. */
  predicate IsFingerprint(f: string) {
    |f| == 64 && forall i :: 0 <= i < |f| ==> HexDigit(f[i])
  }

  function PendingText(f: string): string {
    PENDING + f + "\n"
  }

  /** Strip the prefix, strip one newline, and insist on a fingerprint in between. */
  function ReadPending(text: string): Option<string> {
    if |text| < |PENDING| || text[..|PENDING|] != PENDING then None else
    var rest := text[|PENDING|..];
    if rest == "" || rest[|rest| - 1] != '\n' then None else
    var f := rest[..|rest| - 1];
    if IsFingerprint(f) then Some(f) else None
  }

  /** Reading inverts writing, and nothing else reads as pending. */
  lemma PendingRoundTrip(text: string, f: string)
    ensures IsFingerprint(f) ==> ReadPending(PendingText(f)) == Some(f)
    ensures ReadPending(text).Some? ==> IsFingerprint(ReadPending(text).value) && text == PendingText(ReadPending(text).value)
    ensures ReadPending(COMPLETE) == None
  {
    var written := PendingText(f);
    assert written[..|PENDING|] == PENDING;
    assert written[|PENDING|..] == f + "\n";
    assert (f + "\n")[..|f|] == f;
    if ReadPending(text).Some? {
      var rest := text[|PENDING|..];
      assert rest == rest[..|rest| - 1] + "\n";
      assert text == PENDING + rest;
    }
    assert COMPLETE[0] == 'c' && PENDING[0] == 'p';
  }

  predicate NameStart(c: char) {
    'a' <= c <= 'z' || c == '_'
  }

  predicate ValidUser(user: string) {
    && user != "root"
    && 0 < |user| <= 32
    && forall i :: 0 <= i < |user| ==> NameStart(user[i]) || (i > 0 && ('0' <= user[i] <= '9' || user[i] == '-'))
  }

  datatype Password = Password(fingerprint: string, expired: bool, locked: bool)

  datatype Halt = Running | Died | BadUser | Locked | BadJournal | LaterRule

  datatype Names = Names(members: set<string>) {
    predicate Has(f: string) { f in members }
    function Add(f: string): Names { Names(members + {f}) }
  }

  /** The account, the sudo policy and the journal. The last three fields only remember: the fingerprint
      the journal first recorded, the passwords that were expired, and every password there has been. */
  datatype State = State(
    password: Password,
    journal: Option<string>,
    policy: bool,
    laterRule: bool,
    recorded: Option<string>,
    expiries: seq<string>,
    used: Names,
    fuel: nat,
    halt: Halt)
  {
    predicate Live() { halt == Running }
  }

  function Spend(w: State): State {
    if w.halt != Running then w
    else if w.fuel == 0 then w.(halt := Died)
    else w.(fuel := w.fuel - 1)
  }

  function Refuse(w: State, why: Halt): State {
    if w.Live() then w.(halt := why) else w
  }

  function RecordPending(w: State): State {
    var w1 := Spend(w);
    if w1.Live() then
      w1.(journal := Some(PendingText(w1.password.fingerprint)), recorded := Some(w1.password.fingerprint))
    else w1
  }

  /** A later rule is refused before anything is written; an installed policy is left alone. */
  function RequireSudoPassword(w: State): State {
    if w.laterRule then Refuse(w, LaterRule)
    else if w.policy then w
    else
      var w1 := Spend(w);
      if w1.Live() then w1.(policy := true) else w1
  }

  function Expire(w: State): State {
    var w1 := Spend(w);
    if w1.Live() then
      w1.(password := w1.password.(expired := true), expiries := w1.expiries + [w1.password.fingerprint])
    else w1
  }

  function Complete(w: State): State {
    var w1 := Spend(w);
    if w1.Live() then w1.(journal := Some(COMPLETE)) else w1
  }

  function Conclude(w: State, original: string): State {
    var w1 := RequireSudoPassword(w);
    Complete(if !w.password.expired && w.password.fingerprint == original then Expire(w1) else w1)
  }

  function Finalize(w: State, user: string): State {
    if !ValidUser(user) then Refuse(w, BadUser)
    else if w.password.locked then Refuse(w, Locked)
    else if w.journal == Some(COMPLETE) then RequireSudoPassword(w)
    else if w.journal.Some? && ReadPending(w.journal.value).None? then Refuse(w, BadJournal)
    else
      var original := if w.journal.Some? then ReadPending(w.journal.value).value else w.password.fingerprint;
      Conclude(if w.journal.Some? then w else RecordPending(w), original)
  }

  class Account {
    var password: Password
    var journal: Option<string>
    var policy: bool
    var laterRule: bool
    ghost var recorded: Option<string>
    ghost var expiries: seq<string>
    ghost var used: Names
    var fuel: nat
    var halt: Halt

    ghost function Snapshot(): State
      reads this
    {
      State(password, journal, policy, laterRule, recorded, expiries, used, fuel, halt)
    }

    ghost predicate Reports(r: Status<(), Halt>)
      reads this
    {
      if r.Ok? then halt == Running else halt == r.error && halt != Running
    }

    method Pay() returns (r: Status<(), Halt>)
      requires halt == Running
      modifies this`fuel, this`halt
      ensures Snapshot() == Spend(old(Snapshot())) && Reports(r)
    {
      if fuel == 0 {
        halt := Died;
        return Err(Died);
      }
      fuel := fuel - 1;
      return Ok(());
    }

    method Fail(why: Halt) returns (r: Status<(), Halt>)
      requires halt == Running && why != Running
      modifies this`halt
      ensures Snapshot() == Refuse(old(Snapshot()), why) && Reports(r) && r.Err?
    {
      halt := why;
      return Err(why);
    }

    method InstallPolicy() returns (r: Status<(), Halt>)
      requires halt == Running
      modifies this
      ensures Snapshot() == RequireSudoPassword(old(Snapshot())) && Reports(r)
    {
      if laterRule {
        r := Fail(LaterRule);
        return;
      }
      if !policy {
        var _ :- Pay();
        policy := true;
      }
      return Ok(());
    }

    method Run(user: string) returns (r: Status<(), Halt>)
      requires halt == Running
      modifies this
      ensures Snapshot() == Finalize(old(Snapshot()), user) && Reports(r)
    {
      if !ValidUser(user) {
        r := Fail(BadUser);
        return;
      }
      if password.locked {
        r := Fail(Locked);
        return;
      }
      var observed := password;
      if journal == Some(COMPLETE) {
        r := InstallPolicy();
        return;
      }
      var original: string;
      if journal.Some? {
        var read := ReadPending(journal.value);
        if read.None? {
          r := Fail(BadJournal);
          return;
        }
        original := read.value;
      } else {
        var _ :- Pay();
        journal := Some(PendingText(observed.fingerprint));
        recorded := Some(observed.fingerprint);
        original := observed.fingerprint;
      }
      var _ :- InstallPolicy();
      if !observed.expired && observed.fingerprint == original {
        var _ :- Pay();
        password := password.(expired := true);
        expiries := expiries + [password.fingerprint];
      }
      var _ :- Pay();
      journal := Some(COMPLETE);
      return Ok(());
    }
  }

  // Histories -----------------------------------------------------------------------------------

  /** Attempts cut anywhere; the operator choosing a password, locking or unlocking the account; other
      sudo rules coming and going. */
  datatype Event =
    | Attempt(user: string, fuel: nat)
    | Choose(fingerprint: string)
    | SetLock(on: bool)
    | SetRule(on: bool)

  function Fresh(w: State, fuel: nat): State {
    w.(fuel := fuel, halt := Running)
  }

  function After(w: State, e: Event): State {
    match e
    case Attempt(user, n) => Finalize(Fresh(w, n), user)
    case Choose(f) => w.(password := Password(f, false, w.password.locked), used := w.used.Add(f))
    case SetLock(on) => w.(password := w.password.(locked := on))
    case SetRule(on) => w.(laterRule := on)
  }

  function Replay(w: State, history: seq<Event>): State
    decreases |history|
  {
    if history == [] then w else Replay(After(w, history[0]), history[1..])
  }

  /** Password hashes are salted: a password the operator chooses never repeats an earlier hash. */
  predicate Salted(w: State, history: seq<Event>)
    decreases |history|
  {
    history != [] ==>
      && (history[0].Choose? ==> IsFingerprint(history[0].fingerprint) && !w.used.Has(history[0].fingerprint))
      && Salted(After(w, history[0]), history[1..])
  }

  ghost predicate Journalled(w: State) {
    && IsFingerprint(w.password.fingerprint)
    && w.used.Has(w.password.fingerprint)
    && (w.recorded.Some? ==> IsFingerprint(w.recorded.value) && w.used.Has(w.recorded.value))
    && (match w.journal
        case None => w.recorded == None && w.expiries == []
        case Some(text) => w.recorded.Some? && text in {COMPLETE, PendingText(w.recorded.value)})
  }

  /** The journal's promises. */
  ghost predicate Promises(w: State) {
    && Journalled(w)
    && (w.expiries == [] || (w.recorded.Some? && w.expiries == [w.recorded.value]))
    && (w.expiries != [] && w.recorded == Some(w.password.fingerprint) ==> w.password.expired)
    && (w.journal == Some(COMPLETE) ==>
          w.policy && (w.recorded == Some(w.password.fingerprint) ==> w.password.expired))
  }

  /** Everything an attempt can leave behind. */
  ghost predicate FinalizeShape(w: State, r: State) {
    var mine := w.password.fingerprint;
    var expired := r.expiries == w.expiries + [mine] && r.password == w.password.(expired := true)
                   && !w.password.expired && r.recorded == Some(mine);
    && r.used == w.used
    && (w.policy ==> r.policy)
    && (w.journal.Some? ==> r.recorded == w.recorded && r.journal in {w.journal, Some(COMPLETE)})
    && (w.journal.None? ==>
          || (r.journal == None && r.recorded == w.recorded && r.expiries == w.expiries)
          || (r.recorded == Some(mine) && r.journal in {Some(PendingText(mine)), Some(COMPLETE)}))
    && ((r.expiries == w.expiries && r.password == w.password) || (expired && w.journal != Some(COMPLETE)))
    && (r.journal == Some(COMPLETE) && w.journal != Some(COMPLETE) ==>
          r.policy && (r.password.expired || r.recorded != Some(mine)))
  }

  lemma FinalizeHasShape(w: State, user: string)
    requires w.Live() && Journalled(w)
    ensures FinalizeShape(w, Finalize(w, user))
  {
    hide ReadPending, PendingText, IsFingerprint, ValidUser;
    PendingRoundTrip(COMPLETE, w.password.fingerprint);
    if w.recorded.Some? { PendingRoundTrip(COMPLETE, w.recorded.value); }
  }

  lemma ShapeKeepsPromises(w: State, r: State)
    requires Promises(w) && FinalizeShape(w, r)
    ensures Promises(r)
    ensures w.recorded.Some? ==> r.recorded == w.recorded
  {
    hide ReadPending, PendingText, IsFingerprint;
  }

  lemma FinalizeKeepsPromises(w: State, user: string)
    requires w.Live() && Promises(w)
    ensures Promises(Finalize(w, user))
    ensures w.recorded.Some? ==> Finalize(w, user).recorded == w.recorded
    ensures Finalize(w, user).used == w.used
  {
    hide Finalize;
    FinalizeHasShape(w, user);
    ShapeKeepsPromises(w, Finalize(w, user));
  }

  /** Over every interleaving of cut attempts and password changes: what is expired is the password the
      journal first recorded, at most once; completion means the policy is installed and that password
      is expired or gone. */
  lemma {:induction false} PromisesAlways(w: State, history: seq<Event>)
    requires Promises(w) && Salted(w, history)
    ensures var r := Replay(w, history);
      && Promises(r)
      && |r.expiries| <= 1
      && (w.recorded.Some? ==> r.recorded == w.recorded)
      && (r.journal == Some(COMPLETE) ==> r.policy && (r.password.fingerprint == r.recorded.value ==> r.password.expired))
    decreases |history|
  {
    if history != [] {
      match history[0] {
        case Attempt(user, n) => FinalizeKeepsPromises(Fresh(w, n), user);
        case _ =>
      }
      PromisesAlways(After(w, history[0]), history[1..]);
    }
  }

  /** A completed journal is final: whatever happens afterwards, nothing is expired any more. */
  lemma {:induction false} CompleteIsFinal(w: State, history: seq<Event>)
    requires w.journal == Some(COMPLETE)
    ensures var r := Replay(w, history); r.journal == Some(COMPLETE) && r.expiries == w.expiries
    decreases |history|
  {
    if history != [] { CompleteIsFinal(After(w, history[0]), history[1..]); }
  }

  /** A journal that is neither text mutates nothing. */
  lemma MalformedJournalIsInert(w: State, user: string)
    requires w.Live() && w.journal.Some? && w.journal.value != COMPLETE && ReadPending(w.journal.value) == None
    ensures !Finalize(w, user).Live() && Finalize(w, user) == w.(halt := Finalize(w, user).halt)
  {
  }

  /** An attempt that is not obstructed completes the journal, whatever was cut before it. */
  lemma AttemptCompletes(w: State, history: seq<Event>, user: string, n: nat)
    requires Promises(w) && Salted(w, history) && n >= 4
    requires ValidUser(user) && !Replay(w, history).password.locked && !Replay(w, history).laterRule
    ensures var r := Finalize(Fresh(Replay(w, history), n), user);
      r.Live() && r.policy && r.journal == Some(COMPLETE) && Promises(r)
  {
    PromisesAlways(w, history);
    var mid := Fresh(Replay(w, history), n);
    FinalizeKeepsPromises(mid, user);
    PendingRoundTrip(COMPLETE, mid.password.fingerprint);
    if mid.recorded.Some? { PendingRoundTrip(COMPLETE, mid.recorded.value); }
  }

  predicate CanExpireAgain(w: State, user: string) {
    && ValidUser(user) && !w.password.locked && !w.laterRule
    && w.journal != Some(COMPLETE)
    && !w.password.expired && w.recorded == Some(w.password.fingerprint)
  }

  /** Exactly when a cut or finished attempt expires the recorded password a second time: the journal is
      still pending, nothing obstructs the attempt, and the operator has brought that very hash back. */
  lemma ExpiresAgainIff(w: State, user: string)
    requires Journalled(w) && w.expiries != []
    ensures (exists n: nat :: Finalize(Fresh(w, n), user).expiries != w.expiries)
       <==> CanExpireAgain(w, user)
  {
    PendingRoundTrip(COMPLETE, w.recorded.value);
    if CanExpireAgain(w, user) {
      assert Finalize(Fresh(w, 4), user).expiries == w.expiries + [w.password.fingerprint];
      assert Finalize(Fresh(w, 4), user).expiries != w.expiries;
    } else {
      forall n: nat ensures Finalize(Fresh(w, n), user).expiries == w.expiries {
        FinalizeHasShape(Fresh(w, n), user);
      }
    }
  }

  // Any account, any journal ----------------------------------------------------------------------

  /** A Unix account name other than root's. */
  predicate AccountName(user: string) {
    && user != "root" && 1 <= |user| <= 32
    && ('a' <= user[0] <= 'z' || user[0] == '_')
    && (forall i :: 0 < i < |user| ==> 'a' <= user[i] <= 'z' || '0' <= user[i] <= '9' || user[i] in {'_', '-'})
  }

  /** The journal records this fingerprint as pending. */
  predicate Records(journal: string, f: string) {
    && journal == "pending:" + f + "\n" && |f| == 64
    && (forall i :: 0 <= i < |f| ==> '0' <= f[i] <= '9' || 'a' <= f[i] <= 'f' || 'A' <= f[i] <= 'F')
  }

  ghost predicate Readable(journal: Option<string>) {
    journal.None? || journal == Some("complete\n") || exists f :: Records(journal.value, f)
  }

  /** The first ground of refusal, in the order in which an attempt looks for one. */
  ghost function Admission(w: State, user: string): Halt {
    if !AccountName(user) then BadUser
    else if w.password.locked then Locked
    else if !Readable(w.journal) then BadJournal
    else if w.laterRule then LaterRule
    else Running
  }

  /** This attempt is the one that expires the password: it is still the one recorded, or the first to be. */
  predicate Expires(w: State) {
    !w.password.expired && (w.journal.None? || w.journal == Some("pending:" + w.password.fingerprint + "\n"))
  }

  lemma JournalReads(text: string)
    ensures text == COMPLETE || ReadPending(text).Some? <==> Readable(Some(text))
    ensures ReadPending(text).Some? ==> Records(text, ReadPending(text).value)
    ensures forall f :: Records(text, f) ==> ReadPending(text) == Some(f)
    ensures text == COMPLETE ==> ReadPending(text).None?
  {
    PendingRoundTrip(text, "");
    if ReadPending(text).Some? { assert Records(text, ReadPending(text).value); }
    forall f | Records(text, f) ensures ReadPending(text) == Some(f) {
      assert IsFingerprint(f) && text == PendingText(f);
      PendingRoundTrip(text, f);
    }
  }

  /** From any account and any journal: nobody but a Unix account, an unlocked one, with a journal that can be
      read, is touched at all; a later rule stops the attempt before policy, password and completion; otherwise
      the attempt ends complete, unless it runs out of effects, of which four suffice. */
  lemma FinalizeAdmission(w: State, user: string)
    requires w.Live() && IsFingerprint(w.password.fingerprint)
    ensures var r, admission := Finalize(w, user), Admission(w, user);
      && (admission in {BadUser, Locked, BadJournal} ==> r == w.(halt := admission))
      && (admission in {LaterRule, Running} ==> r.halt in {admission, Died} && (w.fuel >= 4 ==> r.halt != Died))
      && (r.halt == LaterRule ==> r == w.(journal := r.journal, recorded := r.recorded, fuel := r.fuel, halt := LaterRule))
      && (r.halt == LaterRule ==>
        r.journal == if w.journal.Some? then w.journal else Some("pending:" + w.password.fingerprint + "\n"))
  {
    hide ReadPending, IsFingerprint, Conclude;
    UserSpelled(user);
    if w.journal.Some? { JournalReads(w.journal.value); }
    if w.journal.Some? {
      if ReadPending(w.journal.value).Some? { ConclusionIs(w, ReadPending(w.journal.value).value); }
    } else {
      ConclusionIs(RecordPending(w), w.password.fingerprint);
    }
    hide ValidUser, AccountName, Records;
  }

  /** The steps after the journal was read or opened. */
  lemma ConclusionIs(w: State, original: string)
    ensures var r, mine := Conclude(w, original), !w.password.expired && w.password.fingerprint == original;
      && (!w.Live() ==> r == w)
      && (w.Live() && w.laterRule ==> r == w.(halt := LaterRule))
      && (w.Live() && !w.laterRule ==> r.halt in {Running, Died} && (w.fuel >= 3 ==> r.Live()))
      && (r.Live() ==> r.policy && r.journal == Some("complete\n"))
      && (r.Live() && mine ==> r.password == w.password.(expired := true) && r.expiries == w.expiries + [w.password.fingerprint])
      && (!mine ==> r.password == w.password && r.expiries == w.expiries)
      && ((r.password == w.password && r.expiries == w.expiries) || (r.policy && r.password.expired))
  {
  }

  /** A finished attempt leaves the policy and a complete journal, and has expired the password exactly when it
      was the recorded one; no attempt, cut or finished, expires any other, or before the policy is there. */
  lemma FinalizeEffects(w: State, user: string)
    requires w.Live() && IsFingerprint(w.password.fingerprint)
    ensures var r := Finalize(w, user);
      && (r.Live() ==> r.policy && r.journal == Some("complete\n"))
      && (r.Live() && Expires(w) ==> r.password == w.password.(expired := true) && r.expiries == w.expiries + [w.password.fingerprint])
      && (!Expires(w) ==> r.password == w.password && r.expiries == w.expiries)
      && (r.expiries != w.expiries ==> r.policy && r.password.expired)
  {
    hide ReadPending, Conclude;
    if w.journal.Some? {
      JournalReads(w.journal.value);
      if ReadPending(w.journal.value).Some? { ConclusionIs(w, ReadPending(w.journal.value).value); }
    } else {
      ConclusionIs(RecordPending(w), w.password.fingerprint);
    }
    var mine := "pending:" + w.password.fingerprint + "\n";
    assert Records(mine, w.password.fingerprint);
    JournalReads(mine);
    hide IsFingerprint, ValidUser, Records, Readable;
  }

  lemma UserSpelled(user: string)
    ensures ValidUser(user) <==> AccountName(user)
  {
    if ValidUser(user) { assert NameStart(user[0]); }
  }
}
