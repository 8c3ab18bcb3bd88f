/** Installed capability versions and the audit they leave (ego/memory_port.py). */
module EgoVersionSpec {
  import opened Outcomes
  import opened Text
  import opened Sequences

  datatype Key = Key(ego: string, version: string)

  datatype Status = Active | Superseded | Disabled

  /** What the audit can rebuild of an installed version. */
  datatype Standing = Standing(status: Status, supersededBy: Option<string>)

  datatype Action = Install | Supersede | Disable | Rollback

  datatype Event = Event(action: Action, key: Key, related: Option<string>)

  /** The dictionary in insertion order, and the append-only audit. */
  datatype State = State(keys: seq<Key>, items: map<Key, Standing>, audit: seq<Event>)

  ghost predicate Keyed(s: State) {
    && (forall k :: k in s.keys <==> k in s.items)
    && (forall i, j :: 0 <= i < j < |s.keys| ==> s.keys[i] != s.keys[j])
  }

  /** The other active versions of one E.G.O., in dictionary order. */
  function Rivals(s: State, ego: string, except: Key, keys: seq<Key>): seq<Key>
    requires forall k :: k in keys ==> k in s.items
  {
    if keys == [] then []
    else
      var k := keys[|keys| - 1];
      Rivals(s, ego, except, keys[..|keys| - 1]) +
      (if k.ego == ego && s.items[k].status.Active? && k != except then [k] else [])
  }

  function SupersedeOne(s: State, k: Key, successor: string): State {
    State(s.keys, s.items[k := Standing(Superseded, Some(successor))], s.audit + [Event(Supersede, k, Some(successor))])
  }

  function SupersedeAll(s: State, rivals: seq<Key>, successor: string): State {
    if rivals == [] then s
    else SupersedeOne(SupersedeAll(s, rivals[..|rivals| - 1], successor), rivals[|rivals| - 1], successor)
  }

  datatype EgoError = DuplicateInstall | NotInstalled | BlankReason

  datatype Op =
    | DoInstall(key: Key, supersedeActive: bool)
    | DoDisable(key: Key, reason: string)
    | DoRollback(key: Key, reason: string)

  function Written(s: State, k: Key, standing: Standing, action: Action): State {
    State(if k in s.items then s.keys else s.keys + [k], s.items[k := standing], s.audit + [Event(action, k, None)])
  }

  function Apply(s: State, op: Op): Result<State, EgoError>
    requires Keyed(s)
  {
    match op
    case DoInstall(k, supersedeActive) =>
      if k in s.items then Err(DuplicateInstall)
      else
        var cleared := if supersedeActive then SupersedeAll(s, Rivals(s, k.ego, k, s.keys), k.version) else s;
        Ok(Written(cleared, k, Standing(Active, None), Install))
    case DoDisable(k, reason) =>
      if k !in s.items then Err(NotInstalled)
      else if Blank(reason) then Err(BlankReason)
      else Ok(Written(s, k, Standing(Disabled, None), Disable))
    case DoRollback(k, reason) =>
      if Blank(reason) then Err(BlankReason)
      else if k !in s.items then Err(NotInstalled)
      else Ok(Written(SupersedeAll(s, Rivals(s, k.ego, k, s.keys), k.version), k, Standing(Active, None), Rollback))
  }

  // ----- replaying the audit -----

  function Effect(e: Event): Standing {
    match e.action
    case Install => Standing(Active, None)
    case Supersede => Standing(Superseded, e.related)
    case Disable => Standing(Disabled, None)
    case Rollback => Standing(Active, None)
  }

  /** The audit folded in append order. */
  function Replay(audit: seq<Event>): map<Key, Standing> {
    if audit == [] then map[]
    else
      var last := audit[|audit| - 1];
      Replay(audit[..|audit| - 1])[last.key := Effect(last)]
  }

  /** The last event about one version. */
  function LastAbout(audit: seq<Event>, k: Key): Option<Event> {
    if audit == [] then None
    else if audit[|audit| - 1].key == k then Some(audit[|audit| - 1])
    else LastAbout(audit[..|audit| - 1], k)
  }

  /** Replaying gives every version the effect of the last event about it, so only the order per version matters. */
  lemma {:induction false} ReplayIsLast(audit: seq<Event>, k: Key)
    ensures k in Replay(audit) <==> LastAbout(audit, k).Some?
    ensures k in Replay(audit) ==> Replay(audit)[k] == Effect(LastAbout(audit, k).value)
  {
    if audit != [] {
      ReplayIsLast(audit[..|audit| - 1], k);
    }
  }

  lemma ReplayAppended(audit: seq<Event>, e: Event)
    ensures Replay(audit + [e]) == Replay(audit)[e.key := Effect(e)]
  {
    assert (audit + [e])[..|audit|] == audit;
  }

  // ----- what every step keeps -----

  /** The audit rebuilds the installed versions. */
  ghost predicate Recoverable(s: State) {
    Keyed(s) && Replay(s.audit) == s.items
  }

  /** No E.G.O. has two active versions. */
  ghost predicate OneActive(s: State) {
    forall a, b ::
      a in s.items && b in s.items && a.ego == b.ego && s.items[a].status.Active? && s.items[b].status.Active? ==>
      a == b
  }

  lemma {:induction false} RivalsExactly(s: State, ego: string, except: Key, keys: seq<Key>)
    requires forall k :: k in keys ==> k in s.items
    ensures forall k ::
              k in Rivals(s, ego, except, keys) <==>
              k in keys && k.ego == ego && s.items[k].status.Active? && k != except
  {
    if keys != [] {
      var front := keys[..|keys| - 1];
      assert keys == front + [keys[|keys| - 1]];
      RivalsExactly(s, ego, except, front);
    }
  }

  /** Superseding changes the rivals and nothing else, and leaves a trace of each. */
  lemma {:induction false} SupersedeAllExactly(s: State, rivals: seq<Key>, successor: string)
    requires Recoverable(s) && forall k :: k in rivals ==> k in s.items
    ensures var t := SupersedeAll(s, rivals, successor); Recoverable(t) && t.keys == s.keys
    ensures var t := SupersedeAll(s, rivals, successor);
            forall k :: k in s.items ==>
              t.items[k] == if k in rivals then Standing(Superseded, Some(successor)) else s.items[k]
  {
    if rivals != [] {
      var front, last := rivals[..|rivals| - 1], rivals[|rivals| - 1];
      assert rivals == front + [last];
      SupersedeAllExactly(s, front, successor);
      ReplayAppended(SupersedeAll(s, front, successor).audit, Event(Supersede, last, Some(successor)));
    }
  }

  lemma {:induction false} SupersedeAllFrame(s: State, rivals: seq<Key>, successor: string)
    requires forall k :: k in rivals ==> k in s.items
    ensures var t := SupersedeAll(s, rivals, successor); t.keys == s.keys && t.items.Keys == s.items.Keys
    ensures forall k :: k in s.items && k !in rivals ==> SupersedeAll(s, rivals, successor).items[k] == s.items[k]
  {
    if rivals != [] {
      var front := rivals[..|rivals| - 1];
      assert rivals == front + [rivals[|rivals| - 1]];
      SupersedeAllFrame(s, front, successor);
    }
  }

  lemma SupersedeAllAppended(s: State, rivals: seq<Key>, k: Key, successor: string)
    ensures SupersedeAll(s, rivals + [k], successor) == SupersedeOne(SupersedeAll(s, rivals, successor), k, successor)
  {
    assert (rivals + [k])[..|rivals|] == rivals;
  }

  lemma WrittenKeepsRecoverable(s: State, k: Key, standing: Standing, action: Action)
    requires Recoverable(s) && standing == Effect(Event(action, k, None))
    ensures Recoverable(Written(s, k, standing, action))
  {
    hide Replay;
    ReplayAppended(s.audit, Event(action, k, None));
  }

  lemma ApplyKeepsRecoverable(s: State, op: Op)
    requires Recoverable(s) && Apply(s, op).Ok?
    ensures Recoverable(Apply(s, op).value)
  {
    hide Replay, Rivals, SupersedeAll, Blank, Written;
    var k := op.key;
    var rivals := Rivals(s, k.ego, k, s.keys);
    RivalsExactly(s, k.ego, k, s.keys);
    SupersedeAllExactly(s, rivals, k.version);
    var cleared := SupersedeAll(s, rivals, k.version);
    match op
    case DoInstall(_, supersedeActive) =>
      WrittenKeepsRecoverable(if supersedeActive then cleared else s, k, Standing(Active, None), Install);
    case DoDisable(_, _) =>
      WrittenKeepsRecoverable(s, k, Standing(Disabled, None), Disable);
    case DoRollback(_, _) =>
      WrittenKeepsRecoverable(cleared, k, Standing(Active, None), Rollback);
  }

  lemma ApplyKeepsOneActive(s: State, op: Op)
    requires Recoverable(s) && OneActive(s) && Apply(s, op).Ok?
    requires op.DoInstall? ==> op.supersedeActive
    ensures OneActive(Apply(s, op).value)
  {
    hide Replay, Rivals, SupersedeAll, Blank;
    var rivals := Rivals(s, op.key.ego, op.key, s.keys);
    RivalsExactly(s, op.key.ego, op.key, s.keys);
    SupersedeAllExactly(s, rivals, op.key.version);
  }

  /** Without superseding, installing keeps one active version exactly when none was active before. */
  lemma PlainInstallIff(s: State, k: Key)
    requires Recoverable(s) && OneActive(s) && k !in s.items
    ensures OneActive(Apply(s, DoInstall(k, false)).value) <==>
              forall j :: j in s.items && j.ego == k.ego ==> !s.items[j].status.Active?
  {
    var t := Apply(s, DoInstall(k, false)).value;
    assert t.items[k].status.Active?;
    assert forall j :: j in s.items ==> j in t.items && t.items[j] == s.items[j];
  }

  function After(s: State, op: Op): State
    requires Keyed(s)
  {
    if Apply(s, op).Ok? then Apply(s, op).value else s
  }

  ghost function Run(s: State, ops: seq<Op>): State
    requires Recoverable(s)
    decreases |ops|
  {
    if ops == [] then s
    else
      if Apply(s, ops[0]).Ok? then
        ApplyKeepsRecoverable(s, ops[0]);
        Run(After(s, ops[0]), ops[1..])
      else Run(s, ops[1..])
  }

  const EMPTY: State := State([], map[], [])

  /** In every run the audit rebuilds every installed version's state and successor. */
  lemma {:induction false} RunRecoverable(s: State, ops: seq<Op>)
    requires Recoverable(s)
    ensures Recoverable(Run(s, ops))
    decreases |ops|
  {
    hide Replay, Apply;
    if ops != [] {
      if Apply(s, ops[0]).Ok? {
        ApplyKeepsRecoverable(s, ops[0]);
        RunRecoverable(After(s, ops[0]), ops[1..]);
      } else {
        RunRecoverable(s, ops[1..]);
      }
    }
  }

  lemma {:induction false} RunOneActive(s: State, ops: seq<Op>)
    requires Recoverable(s) && OneActive(s)
    requires forall op :: op in ops && op.DoInstall? ==> op.supersedeActive
    ensures OneActive(Run(s, ops))
    decreases |ops|
  {
    hide Replay, OneActive, Apply;
    if ops != [] {
      if Apply(s, ops[0]).Ok? {
        ApplyKeepsRecoverable(s, ops[0]);
        ApplyKeepsOneActive(s, ops[0]);
        RunOneActive(After(s, ops[0]), ops[1..]);
      } else {
        RunOneActive(s, ops[1..]);
      }
    }
  }

  /**
   * From an empty port: the standing of a version is the effect of the last event about it, and one
   * version is active.
   */
  lemma AuditTellsStanding(ops: seq<Op>, k: Key)
    ensures Recoverable(EMPTY)
    ensures var s := Run(EMPTY, ops); k in s.items <==> LastAbout(s.audit, k).Some?
    ensures var s := Run(EMPTY, ops); k in s.items ==> s.items[k] == Effect(LastAbout(s.audit, k).value)
    ensures (forall op :: op in ops && op.DoInstall? ==> op.supersedeActive) ==> OneActive(Run(EMPTY, ops))
  {
    assert Recoverable(EMPTY);
    RunRecoverable(EMPTY, ops);
    ReplayIsLast(Run(EMPTY, ops).audit, k);
    if forall op :: op in ops && op.DoInstall? ==> op.supersedeActive {
      RunOneActive(EMPTY, ops);
    }
  }

  lemma {:induction false} LastAboutConcat(a: seq<Event>, b: seq<Event>, k: Key)
    ensures LastAbout(a + b, k) == if LastAbout(b, k).Some? then LastAbout(b, k) else LastAbout(a, k)
  {
    if b == [] {
      assert a + b == a;
    } else {
      var front := b[..|b| - 1];
      LastAboutConcat(a, front, k);
      assert (a + b)[..|a + b| - 1] == a + front && (a + b)[|a + b| - 1] == b[|b| - 1];
    }
  }

  lemma LastOfTwo(a: Event, b: Event, k: Key)
    ensures LastAbout([a, b], k) == if b.key == k then Some(b) else if a.key == k then Some(a) else None
  {
    assert [a, b][..1] == [a] && [a][..0] == [];
    assert LastAbout([a], k) == if a.key == k then Some(a) else LastAbout([], k);
  }

  /** What a version's standing becomes when two neighbouring events stand in the middle of an audit. */
  lemma StandingAround(before: seq<Event>, a: Event, b: Event, later: seq<Event>, k: Key)
    ensures LastAbout(before + [a, b] + later, k) ==
            if LastAbout(later, k).Some? then LastAbout(later, k)
            else if b.key == k then Some(b) else if a.key == k then Some(a) else LastAbout(before, k)
  {
    hide LastAbout;
    LastAboutConcat(before + [a, b], later, k);
    LastAboutConcat(before, [a, b], k);
    LastOfTwo(a, b, k);
  }

  /** Exchanging neighbours changes what an audit rebuilds iff they disagree on a version no later event is about. */
  lemma OrderMattersIff(before: seq<Event>, a: Event, b: Event, later: seq<Event>)
    ensures Replay(before + [a, b] + later) != Replay(before + [b, a] + later) <==>
            a.key == b.key && Effect(a) != Effect(b) && LastAbout(later, a.key).None?
  {
    hide Replay, LastAbout;
    var x, y := before + [a, b] + later, before + [b, a] + later;
    forall k
      ensures k in Replay(x) <==> k in Replay(y)
      ensures k in Replay(x) && Replay(x)[k] != Replay(y)[k] ==>
                k == a.key == b.key && Effect(a) != Effect(b) && LastAbout(later, a.key).None?
    {
      ReplayIsLast(x, k);
      ReplayIsLast(y, k);
      StandingAround(before, a, b, later, k);
      StandingAround(before, b, a, later, k);
    }
    ReplayIsLast(x, a.key);
    ReplayIsLast(y, a.key);
    StandingAround(before, a, b, later, a.key);
    StandingAround(before, b, a, later, a.key);
  }
}

/** The port itself: a dictionary rewritten in place and an audit list (ego/memory_port.py). */
module EgoVersions {
  import opened Outcomes
  import opened Text
  import opened EgoVersionSpec

  /** The loop over the dictionary has treated its first `i` versions. */
  ghost predicate Treated(before: State, ego: string, except: Key, successor: string, i: nat, now: State)
    requires Keyed(before)
  {
    i <= |before.keys| && now == SupersedeAll(before, Rivals(before, ego, except, before.keys[..i]), successor)
  }

  lemma NoneTreated(before: State, ego: string, except: Key, successor: string)
    requires Keyed(before)
    ensures Treated(before, ego, except, successor, 0, before)
  {
  }

  lemma RivalsNext(s: State, ego: string, except: Key, i: nat)
    requires Keyed(s) && i < |s.keys|
    ensures var k := s.keys[i];
            Rivals(s, ego, except, s.keys[..i + 1]) ==
              Rivals(s, ego, except, s.keys[..i]) +
              (if k.ego == ego && s.items[k].status.Active? && k != except then [k] else [])
  {
    assert s.keys[..i + 1][..i] == s.keys[..i];
  }

  /** The version at the loop's position is still as it was. */
  lemma NextUntouched(before: State, ego: string, except: Key, successor: string, i: nat, now: State)
    requires Keyed(before) && Treated(before, ego, except, successor, i, now)
    ensures now.keys == before.keys && now.items.Keys == before.items.Keys
    ensures i < |before.keys| ==>
              before.keys[i] in now.items && now.items[before.keys[i]] == before.items[before.keys[i]]
  {
    hide SupersedeAll, Rivals;
    var front := before.keys[..i];
    var rivals := Rivals(before, ego, except, front);
    RivalsExactly(before, ego, except, front);
    SupersedeAllFrame(before, rivals, successor);
    if i < |before.keys| {
      assert before.keys[i] in before.keys && before.keys[i] !in front;
    }
  }

  lemma TreatNext(before: State, ego: string, except: Key, successor: string, i: nat, now: State)
    requires Keyed(before) && Treated(before, ego, except, successor, i, now) && i < |before.keys|
    requires before.keys[i] in now.items && now.items[before.keys[i]] == before.items[before.keys[i]]
    ensures var k := before.keys[i];
            var rival := k.ego == ego && now.items[k].status.Active? && k != except;
            Treated(before, ego, except, successor, i + 1, if rival then SupersedeOne(now, k, successor) else now)
  {
    hide SupersedeAll, SupersedeOne, Rivals;
    var rivals := Rivals(before, ego, except, before.keys[..i]);
    RivalsNext(before, ego, except, i);
    SupersedeAllAppended(before, rivals, before.keys[i], successor);
    assert rivals + [] == rivals;
  }

  lemma AllTreated(before: State, ego: string, except: Key, successor: string, now: State)
    requires Keyed(before) && Treated(before, ego, except, successor, |before.keys|, now)
    ensures now == SupersedeAll(before, Rivals(before, ego, except, before.keys), successor)
  {
    assert before.keys[..|before.keys|] == before.keys;
  }

  class InMemoryEgoPort {
    var keys: seq<Key>
    var items: map<Key, Standing>
    var audit: seq<Event>

    ghost function Now(): State
      reads this
    {
      State(keys, items, audit)
    }

    constructor ()
      ensures Now() == EMPTY
    {
      keys, items, audit := [], map[], [];
    }

    /** Supersede the other active versions, one dictionary entry at a time. */
    method SupersedeActive(ego: string, except: Key, successor: string)
      requires Keyed(Now())
      modifies this
      ensures Now() == SupersedeAll(old(Now()), Rivals(old(Now()), ego, except, old(keys)), successor)
      ensures Keyed(Now()) && items.Keys == old(items).Keys
    {
      hide SupersedeAll, Rivals, Treated;
      ghost var before := Now();
      NoneTreated(before, ego, except, successor);
      for i := 0 to |keys|
        invariant keys == before.keys && Treated(before, ego, except, successor, i, Now())
      {
        NextUntouched(before, ego, except, successor, i, Now());
        TreatNext(before, ego, except, successor, i, Now());
        var k := keys[i];
        if k.ego == ego && items[k].status.Active? && k != except {
          items := items[k := Standing(Superseded, Some(successor))];
          audit := audit + [Event(Supersede, k, Some(successor))];
        }
      }
      NextUntouched(before, ego, except, successor, |keys|, Now());
      AllTreated(before, ego, except, successor, Now());
    }

    method Install(key: Key, supersedeActive: bool) returns (r: Result<(), EgoError>)
      requires Keyed(Now())
      modifies this
      ensures Keyed(Now())
      ensures Apply(old(Now()), DoInstall(key, supersedeActive)) ==
                match r { case Err(e) => Err(e) case Ok(_) => Ok(Now()) }
      ensures r.Err? ==> Now() == old(Now())
    {
      if key in items {
        return Err(DuplicateInstall);
      }
      if supersedeActive {
        SupersedeActive(key.ego, key, key.version);
      }
      assert key !in keys;
      keys, items := keys + [key], items[key := Standing(Active, None)];
      audit := audit + [Event(Action.Install, key, None)];
      return Ok(());
    }

    method Disable(key: Key, reason: string) returns (r: Result<(), EgoError>)
      requires Keyed(Now())
      modifies this
      ensures Keyed(Now())
      ensures Apply(old(Now()), DoDisable(key, reason)) == match r { case Err(e) => Err(e) case Ok(_) => Ok(Now()) }
      ensures r.Err? ==> Now() == old(Now())
    {
      if key !in items {
        return Err(NotInstalled);
      }
      if Blank(reason) {
        return Err(BlankReason);
      }
      items := items[key := Standing(Disabled, None)];
      audit := audit + [Event(Action.Disable, key, None)];
      return Ok(());
    }

    method Rollback(key: Key, reason: string) returns (r: Result<(), EgoError>)
      requires Keyed(Now())
      modifies this
      ensures Keyed(Now())
      ensures Apply(old(Now()), DoRollback(key, reason)) == match r { case Err(e) => Err(e) case Ok(_) => Ok(Now()) }
      ensures r.Err? ==> Now() == old(Now())
    {
      if Blank(reason) {
        return Err(BlankReason);
      }
      if key !in items {
        return Err(NotInstalled);
      }
      SupersedeActive(key.ego, key, key.version);
      assert key in keys;
      items := items[key := Standing(Active, None)];
      audit := audit + [Event(Action.Rollback, key, None)];
      return Ok(());
    }
  }
}
