/**
 * One user's refresh token as logins, refreshes, logouts and password changes rotate it, in any interleaving. A hash is
 * salted, so every hashing makes a new one; it is named by its place in the order of making.
 */
module Sessions {
  import opened Prelude

  type Hash = nat

  /** A refresh whose token verified: the hash it read and the hash it will store. */
  datatype Pending = Pending(seen: Hash, replacement: Hash)

  /**
   * revoking are the calls that met a mismatch and will clear the session; consumed lists the hashes that successful
   * refreshes replaced; made gives the token each hash verifies.
   */
  datatype Account = Account(
    refreshTokenHash: Option<Hash>,
    tokenVersion: nat,
    made: seq<string>,
    pending: map<nat, Pending>,
    revoking: set<nat>,
    consumed: seq<Hash>)

  datatype Event =
    | Login(token: string)
    | Logout
    | ChangePassword
    | RefreshRead(call: nat, token: string, next: string)
    | RefreshSwap(call: nat)
    | RefreshRevoke(call: nat)

  function Cleared(a: Account): Account {
    a.(refreshTokenHash := None, tokenVersion := a.tokenVersion + 1)
  }

  function Step(a: Account, e: Event): Account {
    match e
    case Login(token) => a.(refreshTokenHash := Some(|a.made|), made := a.made + [token])
    case Logout => Cleared(a)
    case ChangePassword => Cleared(a)
    case RefreshRead(call, token, next) =>
      if call in a.pending || call in a.revoking || a.refreshTokenHash.None? then a
      else if !Verifies(a, a.refreshTokenHash.value, token) then a.(revoking := a.revoking + {call})
      else a.(made := a.made + [next], pending := a.pending[call := Pending(a.refreshTokenHash.value, |a.made|)])
    case RefreshSwap(call) =>
      if call !in a.pending then a
      else
        var p := a.pending[call];
        var rest := a.(pending := a.pending - {call});
        if a.refreshTokenHash == Some(p.seen)
          then rest.(refreshTokenHash := Some(p.replacement), consumed := a.consumed + [p.seen])
        else rest
    case RefreshRevoke(call) =>
      if call in a.revoking then Cleared(a).(revoking := a.revoking - {call}) else a
  }

  predicate Verifies(a: Account, h: Hash, token: string) {
    h < |a.made| && a.made[h] == token
  }

  const NEW_ACCOUNT := Account(None, 0, [], map[], {}, [])

  function Run(a: Account, events: seq<Event>): Account {
    if events == [] then a else Step(Run(a, events[..|events| - 1]), events[|events| - 1])
  }

  // ----- Rotation -----

  /** Not stored, not consumed, not about to be stored by another call. */
  ghost predicate Unused(a: Account, call: nat)
    requires call in a.pending
  {
    var h := a.pending[call].replacement;
    && a.pending[call].seen < |a.made|
    && h < |a.made| && a.refreshTokenHash != Some(h) && h !in a.consumed
    && forall other :: other in a.pending && other != call ==> a.pending[other].replacement != h
  }

  ghost predicate Rotating(a: Account) {
    && (a.refreshTokenHash.Some? ==> a.refreshTokenHash.value < |a.made| && a.refreshTokenHash.value !in a.consumed)
    && (forall h :: h in a.consumed ==> h < |a.made|)
    && (forall i, j :: 0 <= i < j < |a.consumed| ==> a.consumed[i] != a.consumed[j])
    && (forall call :: call in a.pending ==> Unused(a, call))
  }

  lemma StepRotates(a: Account, e: Event)
    requires Rotating(a)
    ensures Rotating(Step(a, e))
  {
    var after := Step(a, e);
    forall call | call in after.pending ensures Unused(after, call) {
      assert call in a.pending ==> Unused(a, call);
      if e.RefreshSwap? && e.call in a.pending {
        assert Unused(a, e.call);
      }
    }
    if e.RefreshSwap? && e.call in a.pending {
      assert Unused(a, e.call);
    }
  }

  lemma {:induction false} RotatesOn(a: Account, events: seq<Event>)
    requires Rotating(a)
    ensures Rotating(Run(a, events))
  {
    hide Step, Rotating;
    if events != [] {
      RotatesOn(a, events[..|events| - 1]);
      StepRotates(Run(a, events[..|events| - 1]), events[|events| - 1]);
    }
  }

  /** In every interleaving each stored hash is consumed by at most one successful refresh, and never stored again. */
  lemma {:induction false} RunRotates(events: seq<Event>)
    ensures Rotating(Run(NEW_ACCOUNT, events))
  {
    RotatesOn(NEW_ACCOUNT, events);
  }

  /** Of calls that read the same hash, at most one succeeds, even if both read before either swapped. */
  lemma SecondSwapFails(a: Account, first: nat, second: nat)
    requires Rotating(a) && first in a.pending && second in a.pending && first != second
    requires a.pending[first].seen == a.pending[second].seen
    ensures var once := Step(a, RefreshSwap(first)); Step(once, RefreshSwap(second)).consumed == once.consumed
  {
    assert Unused(a, first) && Unused(a, second);
    var once := Step(a, RefreshSwap(first));
    if a.refreshTokenHash == Some(a.pending[first].seen) {
      assert a.pending[first].replacement != a.pending[first].seen;
    }
  }

  // ----- Which token the stored hash verifies -----

  /** The token that the refresh of a call in flight will issue: the next of the read that was accepted. */
  function NextOf(events: seq<Event>, call: nat): Option<string> {
    if events == [] then None
    else
      var init, e := events[..|events| - 1], events[|events| - 1];
      if e.RefreshRead? && e.call == call && call !in Run(NEW_ACCOUNT, init).pending
         && call in Run(NEW_ACCOUNT, events).pending
      then Some(e.next)
      else NextOf(init, call)
  }

  /** The refresh finds the hash it read still stored. */
  predicate Swaps(a: Account, call: nat) {
    call in a.pending && a.refreshTokenHash == Some(a.pending[call].seen)
  }

  /** The token issued by the last event that stored a hash, unless the session was cleared since. */
  function Issued(events: seq<Event>): Option<string> {
    if events == [] then None
    else
      var init := events[..|events| - 1];
      match events[|events| - 1]
      case Login(token) => Some(token)
      case Logout => None
      case ChangePassword => None
      case RefreshRead(_, _, _) => Issued(init)
      case RefreshSwap(call) => if Swaps(Run(NEW_ACCOUNT, init), call) then NextOf(init, call) else Issued(init)
      case RefreshRevoke(call) => if call in Run(NEW_ACCOUNT, init).revoking then None else Issued(init)
  }

  /** The hash a call will store verifies the token it was asked to issue. */
  ghost predicate WillIssue(a: Account, events: seq<Event>) {
    forall call :: call in a.pending ==>
      var h := a.pending[call].replacement;
      h < |a.made| && NextOf(events, call) == Some(a.made[h])
  }

  lemma {:induction false} RunWillIssue(events: seq<Event>)
    ensures WillIssue(Run(NEW_ACCOUNT, events), events)
  {
    if events != [] {
      RunWillIssue(events[..|events| - 1]);
    }
  }

  /** In every interleaving the stored hash verifies a token exactly when that is the one issued last. */
  lemma {:induction false} StoredVerifiesIssued(events: seq<Event>, token: string)
    ensures var a := Run(NEW_ACCOUNT, events);
      && (a.refreshTokenHash.Some? <==> Issued(events).Some?)
      && (a.refreshTokenHash.Some? ==>
          (Verifies(a, a.refreshTokenHash.value, token) <==> Issued(events) == Some(token)))
  {
    if events != [] {
      var init := events[..|events| - 1];
      StoredVerifiesIssued(init, token);
      RunWillIssue(init);
      RunRotates(init);
      SeenBounds(Run(NEW_ACCOUNT, init));
      hide Rotating, NextOf;
    }
  }

  /** After a refresh that went through, the token it issued is accepted and every other is a mismatch. */
  lemma RefreshedAccepts(events: seq<Event>, call: nat, next: string, again: nat, token: string, later: string)
    requires Swaps(Run(NEW_ACCOUNT, events), call) && NextOf(events, call) == Some(next)
    requires again !in Run(NEW_ACCOUNT, events).pending && again !in Run(NEW_ACCOUNT, events).revoking
    ensures var read := Run(NEW_ACCOUNT, events + [RefreshSwap(call), RefreshRead(again, token, later)]);
      if token == next then again in read.pending && again !in read.revoking
      else again in read.revoking && again !in read.pending
    ensures Run(NEW_ACCOUNT, events + [RefreshSwap(call), RefreshRead(again, token, later)]).tokenVersion ==
      Run(NEW_ACCOUNT, events).tokenVersion
  {
    hide NextOf;
    var swapped := events + [RefreshSwap(call)];
    assert swapped[..|events|] == events;
    var shown := events + [RefreshSwap(call), RefreshRead(again, token, later)];
    assert shown[..|swapped|] == swapped && shown[|swapped|] == RefreshRead(again, token, later);
    StoredVerifiesIssued(swapped, token);
  }

  // ----- Revocation -----

  /** Every clearing ends the tokens of the version before, and nothing else does. */
  lemma VersionCountsClearings(a: Account, events: seq<Event>, e: Event)
    ensures var was := Run(a, events);
      Step(was, e).tokenVersion == was.tokenVersion +
        if e.Login? || Quiet(a, events + [e], |events|) then 0 else 1
    ensures e.Logout? || e.ChangePassword? ==> Step(Run(a, events), e).refreshTokenHash.None?
  {
    assert (events + [e])[..|events|] == events;
  }

  lemma StepVersion(a: Account, e: Event)
    ensures Step(a, e).tokenVersion >= a.tokenVersion
    ensures a.refreshTokenHash.Some? && Step(a, e).refreshTokenHash.None? ==>
      Step(a, e).tokenVersion == a.tokenVersion + 1
  {}

  /** Once cleared, whatever refreshes are in flight, no refresh succeeds until the next login. */
  lemma {:induction false} ClearedUntilLogin(a: Account, events: seq<Event>)
    requires a.refreshTokenHash.None?
    requires forall i :: 0 <= i < |events| ==> !events[i].Login?
    ensures Run(a, events).refreshTokenHash.None? && Run(a, events).consumed == a.consumed
  {
    if events != [] {
      ClearedUntilLogin(a, events[..|events| - 1]);
    }
  }

  /**
   * Once a refresh went through, showing any token but the one it issued, the one it was shown among them, revokes the
   * session: the call goes on to clear the hash, and every token of the old version with it, whatever comes in between.
   */
  lemma ReplayRevokes(
    events: seq<Event>, call: nat, next: string, again: nat, token: string, later: string, between: seq<Event>)
    requires Swaps(Run(NEW_ACCOUNT, events), call) && NextOf(events, call) == Some(next) && next != token
    requires again !in Run(NEW_ACCOUNT, events).pending && again !in Run(NEW_ACCOUNT, events).revoking
    requires forall i :: 0 <= i < |between| ==> between[i] != RefreshRevoke(again)
    ensures var read := Run(NEW_ACCOUNT, events + [RefreshSwap(call), RefreshRead(again, token, later)]);
      var after := Step(Run(read, between), RefreshRevoke(again));
      after.refreshTokenHash.None? && after.tokenVersion > Run(NEW_ACCOUNT, events).tokenVersion
  {
    hide NextOf, Swaps;
    RefreshedAccepts(events, call, next, again, token, later);
    StillRevoking(Run(NEW_ACCOUNT, events + [RefreshSwap(call), RefreshRead(again, token, later)]), between, again);
  }

  lemma {:induction false} StillRevoking(a: Account, events: seq<Event>, call: nat)
    requires call in a.revoking && forall i :: 0 <= i < |events| ==> events[i] != RefreshRevoke(call)
    ensures call in Run(a, events).revoking && Run(a, events).tokenVersion >= a.tokenVersion
  {
    if events != [] {
      StillRevoking(a, events[..|events| - 1], call);
      StepVersion(Run(a, events[..|events| - 1]), events[|events| - 1]);
    }
  }

  // ----- Which session a mismatch ends -----

  /** For each hash, the place among the events of the login it descends from, through the refreshes in between. */
  function Origins(a: Account, events: seq<Event>): (origins: seq<Option<nat>>)
    ensures |origins| == |Run(a, events).made|
  {
    if events == [] then seq(|a.made|, _ => None)
    else
      var last := |events| - 1;
      var origins := Origins(a, events[..last]);
      if events[last].Login? then origins + [Some(last)]
      else if |Run(a, events).made| == |origins| then origins
      else origins + [origins[Run(a, events[..last]).refreshTokenHash.value]]
  }

  /** Event j neither opens a session nor clears one. */
  predicate Quiet(a: Account, events: seq<Event>, j: nat)
    requires j < |events|
  {
    match events[j]
    case Login(_) => false
    case Logout => false
    case ChangePassword => false
    case RefreshRevoke(call) => call !in Run(a, events[..j]).revoking
    case _ => true
  }

  /** Event i is a login and the session it opened was neither replaced nor cleared by a later event. */
  ghost predicate OpenedBy(a: Account, events: seq<Event>, i: nat) {
    && i < |events| && events[i].Login?
    && forall j :: i < j < |events| ==> Quiet(a, events, j)
  }

  /** A call in flight will store a hash of the session whose hash it read. */
  ghost predicate KeepsOrigin(a: Account, origins: seq<Option<nat>>)
    requires |origins| == |a.made|
  {
    forall call :: call in a.pending ==>
      var p := a.pending[call];
      p.seen < |origins| && p.replacement < |origins| && origins[p.seen] == origins[p.replacement]
  }

  lemma SeenBounds(a: Account)
    requires Rotating(a)
    ensures a.refreshTokenHash.Some? ==> a.refreshTokenHash.value < |a.made|
    ensures forall call :: call in a.pending ==>
      a.pending[call].seen < |a.made| && a.pending[call].replacement < |a.made|
  {
    forall call | call in a.pending
      ensures a.pending[call].seen < |a.made| && a.pending[call].replacement < |a.made|
    {
      assert Unused(a, call);
    }
  }

  lemma {:induction false} Descent(a: Account, events: seq<Event>)
    requires Rotating(a)
    ensures KeepsOrigin(Run(a, events), Origins(a, events))
  {
    hide Rotating;
    if events == [] {
      SeenBounds(a);
    } else {
      Descent(a, events[..|events| - 1]);
    }
  }

  lemma OpenedBySnoc(a: Account, events: seq<Event>, i: nat)
    requires events != []
    ensures var last := |events| - 1;
      OpenedBy(a, events, i) <==>
        (if i == last then events[last].Login? else Quiet(a, events, last) && OpenedBy(a, events[..last], i))
  {
    hide Run;
    var before := events[..|events| - 1];
    forall j: nat | j < |before| ensures Quiet(a, events, j) == Quiet(a, before, j) {
      assert before[..j] == events[..j];
    }
  }

  /** The stored hash descends from login i exactly when no login and no clearing came after it. */
  lemma {:induction false} SessionOrigin(a: Account, events: seq<Event>, i: nat)
    requires Rotating(a)
    ensures var now := Run(a, events); now.refreshTokenHash.Some? ==> now.refreshTokenHash.value < |now.made|
    ensures var now := Run(a, events);
      now.refreshTokenHash.Some? && Origins(a, events)[now.refreshTokenHash.value] == Some(i) <==>
        OpenedBy(a, events, i)
  {
    hide Rotating;
    RotatesOn(a, events);
    SeenBounds(Run(a, events));
    if events != [] {
      var before := events[..|events| - 1];
      Descent(a, before);
      SessionOrigin(a, before, i);
      OpenedBySnoc(a, events, i);
      hide OpenedBy;
    }
  }

  /**
   * A mismatch ends whatever session is stored by the time it clears, with every token of the version before. Over any
   * events in between that session is one a later login opened exactly when some login came with no login and no
   * clearing after it, and then it is that login's.
   */
  lemma RevocationMeetsLaterLogin(a: Account, call: nat, between: seq<Event>, i: nat)
    requires Rotating(a) && call in a.revoking
    requires forall k :: 0 <= k < |between| ==> between[k] != RefreshRevoke(call)
    ensures var met := Run(a, between); met.refreshTokenHash.Some? ==> met.refreshTokenHash.value < |met.made|
    ensures var met := Run(a, between);
      met.refreshTokenHash.Some? && Origins(a, between)[met.refreshTokenHash.value] == Some(i) <==>
        OpenedBy(a, between, i)
    ensures var met := Run(a, between);
      var after := Step(met, RefreshRevoke(call));
      after.refreshTokenHash.None? && after.tokenVersion == met.tokenVersion + 1 > a.tokenVersion
  {
    StillRevoking(a, between, call);
    SessionOrigin(a, between, i);
  }

  /** A token shown against the first session ends the second: the clearing it asked for came after the second login. */
  lemma OldMismatchEndsNewSession(first: string, wrong: string, next: string, second: string)
    requires first != wrong
    ensures var read := Run(NEW_ACCOUNT, [Login(first), RefreshRead(0, wrong, next)]);
      read.revoking == {0} && read.refreshTokenHash == Some(0)
    ensures var met := Run(NEW_ACCOUNT, [Login(first), RefreshRead(0, wrong, next), Login(second)]);
      met.refreshTokenHash == Some(1) && met.tokenVersion == 0
    ensures var after := Run(NEW_ACCOUNT, [Login(first), RefreshRead(0, wrong, next), Login(second), RefreshRevoke(0)]);
      after.refreshTokenHash.None? && after.tokenVersion == 1
  {
    var events := [Login(first), RefreshRead(0, wrong, next), Login(second), RefreshRevoke(0)];
    assert Run(NEW_ACCOUNT, []) == NEW_ACCOUNT;
    assert events[..1][..0] == [];
    assert events[..2][..1] == events[..1] == [Login(first)];
    assert events[..3][..2] == events[..2] == [Login(first), RefreshRead(0, wrong, next)];
    assert events[..3] == [Login(first), RefreshRead(0, wrong, next), Login(second)];
  }

  // ----- The service -----

  class AuthService {
    var refreshTokenHash: Option<Hash>
    var tokenVersion: nat
    var made: seq<string>
    var pending: map<nat, Pending>
    var revoking: set<nat>
    var consumed: seq<Hash>

    function State(): Account
      reads this
    {
      Account(refreshTokenHash, tokenVersion, made, pending, revoking, consumed)
    }

    constructor ()
      ensures State() == NEW_ACCOUNT
    {
      refreshTokenHash, tokenVersion, made, pending, revoking, consumed := None, 0, [], map[], {}, [];
    }

    method HashToken(token: string) returns (h: Hash)
      modifies this`made
      ensures h == |old(made)| && made == old(made) + [token]
    {
      h := |made|;
      made := made + [token];
    }

    method LogIn(token: string)
      modifies this
      ensures State() == Step(old(State()), Login(token))
    {
      var h := HashToken(token);
      refreshTokenHash := Some(h);
    }

    method LogOut()
      modifies this
      ensures State() == Step(old(State()), Logout)
    {
      refreshTokenHash := None;
      tokenVersion := tokenVersion + 1;
    }

    method SetPassword()
      modifies this
      ensures State() == Step(old(State()), ChangePassword)
    {
      tokenVersion := tokenVersion + 1;
      refreshTokenHash := None;
    }

    /** The first half of a refresh: compare with the stored hash, hash the new token. */
    method ReadForRefresh(call: nat, token: string, next: string) returns (accepted: bool)
      modifies this
      ensures State() == Step(old(State()), RefreshRead(call, token, next))
      ensures accepted ==
        (call !in old(pending) && call !in old(revoking) && old(refreshTokenHash).Some?
         && Verifies(old(State()), old(refreshTokenHash).value, token))
    {
      if call in pending || call in revoking || refreshTokenHash.None? {
        return false;
      }
      if !Verifies(State(), refreshTokenHash.value, token) {
        revoking := revoking + {call};
        return false;
      }
      var seen := refreshTokenHash.value;
      var h := HashToken(next);
      pending := pending[call := Pending(seen, h)];
      return true;
    }

    /** The second half after a mismatch: an update that looks at nothing. */
    method Revoke(call: nat)
      requires call in revoking
      modifies this
      ensures State() == Step(old(State()), RefreshRevoke(call))
    {
      revoking := revoking - {call};
      refreshTokenHash := None;
      tokenVersion := tokenVersion + 1;
    }

    /** The second half: the compare-and-swap on the hash that was read. */
    method SwapForRefresh(call: nat) returns (count: nat)
      requires call in pending
      modifies this
      ensures State() == Step(old(State()), RefreshSwap(call))
      ensures count == if old(refreshTokenHash) == Some(old(pending)[call].seen) then 1 else 0
    {
      var p := pending[call];
      pending := pending - {call};
      if refreshTokenHash == Some(p.seen) {
        refreshTokenHash := Some(p.replacement);
        consumed := consumed + [p.seen];
        return 1;
      }
      return 0;
    }
  }
}
