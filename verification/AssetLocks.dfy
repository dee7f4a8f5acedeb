/** Managers that prepare model files share the files' locks. Each takes its locks in one global order, waiting for
    each in turn, and releases them together. */
module AssetLocks {

  /** A lock path, by its place in the order of all paths. */
  type Lock = nat

  datatype Status = Waiting | Inside | Finished

  /** The locks a manager needs, in the order in which it takes them, and how many of them it has. */
  datatype Manager = Manager(locks: seq<Lock>, held: nat, status: Status)

  /** All managers, and who has which lock. */
  datatype System = System(managers: seq<Manager>, owner: map<Lock, nat>)

  datatype Action = Take(m: nat) | Leave(m: nat) | GiveUp(m: nat)

  // ---------- the order ----------

  ghost predicate IsLeast(x: Lock, s: set<Lock>) {
    x in s && forall y :: y in s ==> x <= y
  }

  lemma {:induction false} LeastExists(s: set<Lock>) returns (x: Lock)
    requires s != {}
    ensures IsLeast(x, s)
    decreases |s|
  {
    x :| x in s;
    var rest := s - {x};
    if rest != {} {
      var z := LeastExists(rest);
      if z < x { x := z; }
    }
    assert forall y :: y in s ==> y in rest || y == x || x <= y;
  }

  /** The least element of a set. */
  ghost function Least(s: set<Lock>): (x: Lock)
    requires s != {}
    ensures IsLeast(x, s)
  {
    assert exists x :: IsLeast(x, s) by { var x := LeastExists(s); }
    var x :| IsLeast(x, s);
    x
  }

  /** The locks of a set of targets, in order and without repetition. */
  ghost function Sorted(s: set<Lock>): seq<Lock>
    decreases |s|
  {
    if s == {} then [] else [Least(s)] + Sorted(s - {Least(s)})
  }

  ghost predicate Ascending(locks: seq<Lock>) {
    forall i, j :: 0 <= i < j < |locks| ==> locks[i] < locks[j]
  }

  lemma {:induction false} SortedIsAscending(s: set<Lock>)
    ensures Ascending(Sorted(s)) && forall x :: x in Sorted(s) <==> x in s
    decreases |s|
  {
    if s != {} {
      var rest := s - {Least(s)};
      assert IsLeast(Least(s), s);
      SortedIsAscending(rest);
      var all := Sorted(s);
      assert all == [Least(s)] + Sorted(rest);
      forall i, j | 0 <= i < j < |all| ensures all[i] < all[j] {
        assert all[j] == Sorted(rest)[j - 1];
        assert all[j] in rest;
      }
    }
  }

  // ---------- the system ----------

  ghost function NewManagers(targets: seq<set<Lock>>): seq<Manager> {
    seq(|targets|, i requires 0 <= i < |targets| => Manager(Sorted(targets[i]), 0, Waiting))
  }

  ghost function Init(targets: seq<set<Lock>>): System {
    System(NewManagers(targets), map[])
  }

  /** The next lock is free. */
  predicate CanTake(s: System, m: nat) {
    m < |s.managers|
    && var x := s.managers[m]; x.status == Waiting && x.held < |x.locks| && x.locks[x.held] !in s.owner
  }

  /** All locks are there, or the manager is done with its work. */
  predicate CanLeave(s: System, m: nat) {
    m < |s.managers| && var x := s.managers[m];
    (x.status == Waiting && x.held == |x.locks|) || x.status == Inside
  }

  function Without(owner: map<Lock, nat>, m: nat): map<Lock, nat> {
    map l | l in owner && owner[l] != m :: owner[l]
  }

  function Released(s: System, m: nat): System
    requires m < |s.managers|
  {
    System(s.managers[m := s.managers[m].(held := 0, status := Finished)], Without(s.owner, m))
  }

  /** Take: one more lock. Leave: from having all locks to working, from working to having released them. GiveUp: a
      lock did not become free in time, or the work failed; all locks are released. */
  function Step(s: System, a: Action): System {
    match a
    case Take(m) =>
      if CanTake(s, m) then
        var x := s.managers[m];
        System(s.managers[m := x.(held := x.held + 1)], s.owner[x.locks[x.held] := m])
      else s
    case Leave(m) =>
      if !CanLeave(s, m) then s
      else if s.managers[m].status == Waiting then
        s.(managers := s.managers[m := s.managers[m].(status := Inside)])
      else Released(s, m)
    case GiveUp(m) =>
      if m < |s.managers| && s.managers[m].status != Finished then Released(s, m) else s
  }

  ghost function Run(targets: seq<set<Lock>>, actions: seq<Action>): System {
    if actions == [] then Init(targets)
    else Step(Run(targets, actions[..|actions| - 1]), actions[|actions| - 1])
  }

  // ---------- invariants ----------

  ghost predicate ManagerSound(x: Manager) {
    && Ascending(x.locks) && x.held <= |x.locks|
    && (x.status == Inside ==> x.held == |x.locks|) && (x.status == Finished ==> x.held == 0)
  }

  ghost predicate Holds(x: Manager, l: Lock) {
    exists i :: 0 <= i < x.held && i < |x.locks| && x.locks[i] == l
  }

  /** A lock that is owned is among those its owner holds. */
  ghost predicate Backed(s: System, l: Lock)
    requires l in s.owner
  {
    s.owner[l] < |s.managers| && Holds(s.managers[s.owner[l]], l)
  }

  /** What a manager holds, it owns. */
  ghost predicate Owns(s: System, m: nat)
    requires m < |s.managers|
  {
    forall i :: 0 <= i < s.managers[m].held && i < |s.managers[m].locks| ==>
      s.managers[m].locks[i] in s.owner && s.owner[s.managers[m].locks[i]] == m
  }

  ghost predicate Inv(s: System) {
    && (forall m :: 0 <= m < |s.managers| ==> ManagerSound(s.managers[m]))
    && (forall m :: 0 <= m < |s.managers| ==> Owns(s, m))
    && (forall l :: l in s.owner ==> Backed(s, l))
  }

  lemma TakeKeepsInv(s: System, m: nat)
    requires Inv(s) && CanTake(s, m)
    ensures Inv(Step(s, Take(m)))
  {
    var t := Step(s, Take(m));
    var x := s.managers[m];
    var taken := x.locks[x.held];
    assert ManagerSound(x);
    forall k | 0 <= k < |t.managers| ensures ManagerSound(t.managers[k]) {
      assert ManagerSound(s.managers[k]);
    }
    forall k | 0 <= k < |t.managers| ensures Owns(t, k) {
      assert Owns(s, k);
    }
    var y := x.(held := x.held + 1);
    assert t.managers[m] == y && y.locks[x.held] == taken;
    forall l | l in t.owner ensures Backed(t, l) {
      if l != taken {
        assert Backed(s, l);
        if s.owner[l] == m { HoldsMore(x, y, l); }
      }
    }
  }

  lemma HoldsMore(x: Manager, y: Manager, l: Lock)
    requires Holds(x, l) && y.locks == x.locks && y.held >= x.held
    ensures Holds(y, l)
  {
    var i :| 0 <= i < x.held && i < |x.locks| && x.locks[i] == l;
    assert y.locks[i] == l;
  }

  lemma ReleaseKeepsInv(s: System, m: nat)
    requires Inv(s) && m < |s.managers|
    ensures Inv(Released(s, m))
  {
    var t := Released(s, m);
    forall k | 0 <= k < |t.managers| ensures ManagerSound(t.managers[k]) {
      assert ManagerSound(s.managers[k]);
    }
    forall k | 0 <= k < |t.managers| ensures Owns(t, k) {
      assert Owns(s, k);
    }
    forall l | l in t.owner ensures Backed(t, l) {
      assert Backed(s, l);
    }
  }

  lemma EnterKeepsInv(s: System, m: nat)
    requires Inv(s) && m < |s.managers|
    requires s.managers[m].held == |s.managers[m].locks| && s.managers[m].status == Waiting
    ensures Inv(s.(managers := s.managers[m := s.managers[m].(status := Inside)]))
  {
    var t := s.(managers := s.managers[m := s.managers[m].(status := Inside)]);
    forall k | 0 <= k < |t.managers| ensures ManagerSound(t.managers[k]) && Owns(t, k) {
      assert ManagerSound(s.managers[k]) && Owns(s, k);
    }
    forall l | l in t.owner ensures Backed(t, l) {
      assert Backed(s, l);
    }
  }

  lemma StepKeepsInv(s: System, a: Action)
    requires Inv(s)
    ensures Inv(Step(s, a))
  {
    match a
    case Take(m) => if CanTake(s, m) { TakeKeepsInv(s, m); }
    case Leave(m) =>
      if CanLeave(s, m) {
        if s.managers[m].status == Waiting { EnterKeepsInv(s, m); } else { ReleaseKeepsInv(s, m); }
      }
    case GiveUp(m) => if m < |s.managers| { ReleaseKeepsInv(s, m); }
  }

  lemma {:induction false} RunKeepsInv(targets: seq<set<Lock>>, actions: seq<Action>)
    ensures Inv(Run(targets, actions)) && |Run(targets, actions).managers| == |targets|
  {
    if actions == [] {
      forall m | 0 <= m < |targets| ensures Ascending(Sorted(targets[m])) { SortedIsAscending(targets[m]); }
    } else {
      RunKeepsInv(targets, actions[..|actions| - 1]);
      StepKeepsInv(Run(targets, actions[..|actions| - 1]), actions[|actions| - 1]);
    }
  }

  // ---------- exclusion ----------

  /** Two managers at work have no file in common. */
  lemma WorkIsExclusive(targets: seq<set<Lock>>, actions: seq<Action>, m: nat, k: nat, l: Lock)
    requires var s := Run(targets, actions);
             m < |s.managers| && k < |s.managers| && s.managers[m].status == Inside && s.managers[k].status == Inside
             && l in s.managers[m].locks && l in s.managers[k].locks
    ensures m == k
  {
    var s := Run(targets, actions);
    RunKeepsInv(targets, actions);
    assert Owns(s, m) && Owns(s, k) && ManagerSound(s.managers[m]) && ManagerSound(s.managers[k]);
  }

  // ---------- no deadlock ----------

  predicate Unfinished(s: System, m: nat) {
    m < |s.managers| && s.managers[m].status != Finished
  }

  predicate CanMove(s: System, m: nat) {
    CanTake(s, m) || CanLeave(s, m)
  }

  /** The lock that an unfinished manager that cannot move is waiting for. */
  function Wanted(s: System, m: nat): Lock
    requires Inv(s) && Unfinished(s, m) && !CanMove(s, m)
  {
    assert ManagerSound(s.managers[m]);
    s.managers[m].locks[s.managers[m].held]
  }

  /** Whoever has the lock that somebody is waiting for can move, or is waiting for a lock further on. */
  lemma HolderWantsMore(s: System, m: nat) returns (h: nat)
    requires Inv(s) && Unfinished(s, m) && !CanMove(s, m)
    ensures Unfinished(s, h) && (CanMove(s, h) || Wanted(s, h) > Wanted(s, m))
  {
    var l := Wanted(s, m);
    assert ManagerSound(s.managers[m]);
    assert l in s.owner;
    assert Backed(s, l);
    h := s.owner[l];
    var x := s.managers[h];
    assert ManagerSound(x);
    var i :| 0 <= i < x.held && x.locks[i] == l;
  }

  /** Every lock is below the bound, so that the chain of waiting managers ends. */
  lemma {:induction false} SomebodyMoves(s: System, m: nat, bound: nat) returns (h: nat)
    requires Inv(s) && Unfinished(s, m)
    requires forall l :: l in s.owner ==> l < bound
    ensures Unfinished(s, h) && CanMove(s, h)
    decreases if CanMove(s, m) then 0 else bound - Wanted(s, m)
  {
    if CanMove(s, m) {
      h := m;
    } else {
      assert ManagerSound(s.managers[m]);
      assert Wanted(s, m) in s.owner;
      var k := HolderWantsMore(s, m);
      if CanMove(s, k) {
        h := k;
      } else {
        assert ManagerSound(s.managers[k]);
        assert Wanted(s, k) in s.owner;
        h := SomebodyMoves(s, k, bound);
      }
    }
  }

  lemma {:induction false} LocksAreBounded(s: set<Lock>) returns (bound: nat)
    ensures forall l :: l in s ==> l < bound
    decreases |s|
  {
    bound := 0;
    if s != {} {
      var x :| x in s;
      var rest := s - {x};
      var b := LocksAreBounded(rest);
      bound := if b > x then b else x + 1;
      forall l | l in s ensures l < bound {
        assert l == x || l in rest;
      }
    }
  }

  /** However the managers' files overlap: as long as one is unfinished, one can take its next lock, start its work
      or finish it. */
  lemma NeverStuck(targets: seq<set<Lock>>, actions: seq<Action>, m: nat) returns (h: nat)
    requires Unfinished(Run(targets, actions), m)
    ensures Unfinished(Run(targets, actions), h) && CanMove(Run(targets, actions), h)
  {
    RunKeepsInv(targets, actions);
    var s := Run(targets, actions);
    var bound := LocksAreBounded(s.owner.Keys);
    h := SomebodyMoves(s, m, bound);
  }

  // ---------- progress ----------

  function WorkOf(x: Manager): nat {
    match x.status
    case Waiting => (if x.held <= |x.locks| then |x.locks| - x.held else 0) + 2
    case Inside => 1
    case Finished => 0
  }

  function Work(ms: seq<Manager>): nat {
    if ms == [] then 0 else WorkOf(ms[0]) + Work(ms[1..])
  }

  lemma {:induction false} WorkOfChange(ms: seq<Manager>, m: nat, x: Manager)
    requires m < |ms|
    ensures Work(ms[m := x]) == Work(ms) - WorkOf(ms[m]) + WorkOf(x)
  {
    if m == 0 {
      assert ms[0 := x][1..] == ms[1..];
    } else {
      WorkOfChange(ms[1..], m - 1, x);
      assert ms[m := x][1..] == ms[1..][m - 1 := x];
    }
  }

  function Move(s: System, m: nat): Action {
    if CanTake(s, m) then Take(m) else Leave(m)
  }

  lemma MovesReduceWork(s: System, m: nat)
    requires CanMove(s, m)
    ensures Work(Step(s, Move(s, m)).managers) < Work(s.managers)
  {
    var x := s.managers[m];
    var t := Step(s, Move(s, m));
    WorkOfChange(s.managers, m, t.managers[m]);
    assert t.managers == s.managers[m := t.managers[m]];
  }

  /** From every reachable state the managers can all finish without anyone giving up. */
  lemma {:induction false} AllCanFinish(targets: seq<set<Lock>>, actions: seq<Action>) returns (more: seq<Action>)
    ensures var s := Run(targets, actions + more); forall m: nat :: m < |s.managers| ==> !Unfinished(s, m)
    ensures forall i :: 0 <= i < |more| ==> !more[i].GiveUp?
    decreases Work(Run(targets, actions).managers)
  {
    var s := Run(targets, actions);
    if m: nat :| Unfinished(s, m) {
      var h := NeverStuck(targets, actions, m);
      var a := Move(s, h);
      MovesReduceWork(s, h);
      var longer := actions + [a];
      assert longer[..|longer| - 1] == actions;
      var rest := AllCanFinish(targets, longer);
      more := [a] + rest;
      assert actions + more == longer + rest;
    } else {
      more := [];
      assert actions + more == actions;
    }
  }

  /** A manager that gives up, because a lock did not become free in time or its work failed, leaves no lock behind and
      takes none from the others. */
  lemma GivingUpFreesItsLocks(targets: seq<set<Lock>>, actions: seq<Action>, m: nat, l: Lock)
    requires m < |Run(targets, actions).managers| && Run(targets, actions).managers[m].status != Finished
    ensures var s := Run(targets, actions);
            var t := Step(s, GiveUp(m));
            && t.managers[m].status == Finished && t.managers[m].held == 0
            && (l in s.owner && s.owner[l] == m ==> l !in t.owner)
            && (l in s.owner && s.owner[l] != m ==> l in t.owner && t.owner[l] == s.owner[l])
            && forall i :: 0 <= i < |s.managers| && i != m ==> t.managers[i] == s.managers[i]
  {
  }
}
