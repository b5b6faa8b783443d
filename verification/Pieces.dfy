/** Code as a list of pieces: running one piece changes the state and may put further pieces
    in front of those still due. */
module Pieces {

  datatype Outcome<S, O> = Outcome(state: S, next: seq<O>)

  type Piece<!S, !O> = (S, O) -> Outcome<S, O>

  /** At most `n` pieces. */
  function RunSome<S, O>(exec: Piece<S, O>, s: S, ops: seq<O>, n: nat): Outcome<S, O>
    decreases n
  {
    if n == 0 || ops == [] then Outcome(s, ops)
    else
      var e := exec(s, ops[0]);
      RunSome(exec, e.state, e.next + ops[1..], n - 1)
  }

  /** Running `ops` to the end takes `s` to `d`. */
  ghost predicate Runs<S, O>(exec: Piece<S, O>, s: S, ops: seq<O>, d: S) {
    exists n: nat :: RunSome(exec, s, ops, n) == Outcome(d, [])
  }

  lemma {:induction false} RunSomeAppend<S, O>(exec: Piece<S, O>, s: S, ops: seq<O>, more: seq<O>, n: nat)
    requires RunSome(exec, s, ops, n).next == []
    ensures exists k: nat :: RunSome(exec, s, ops + more, k) == Outcome(RunSome(exec, s, ops, n).state, more)
    decreases n
  {
    if n == 0 || ops == [] {
      assert ops + more == more;
      assert RunSome(exec, s, ops + more, 0) == Outcome(s, more);
    } else {
      var e := exec(s, ops[0]);
      var due := e.next + ops[1..];
      RunSomeAppend(exec, e.state, due, more, n - 1);
      var k: nat :| RunSome(exec, e.state, due + more, k) == Outcome(RunSome(exec, e.state, due, n - 1).state, more);
      assert e.next + (ops + more)[1..] == due + more;
      assert RunSome(exec, s, ops + more, k + 1) == RunSome(exec, e.state, due + more, k);
    }
  }

  lemma {:induction false} RunSomeMore<S, O>(exec: Piece<S, O>, s: S, ops: seq<O>, n: nat, k: nat)
    ensures var r := RunSome(exec, s, ops, n);
            RunSome(exec, s, ops, n + k) == RunSome(exec, r.state, r.next, k)
    decreases n
  {
    if n > 0 && ops != [] {
      var e := exec(s, ops[0]);
      RunSomeMore(exec, e.state, e.next + ops[1..], n - 1, k);
    }
  }

  /** Runs compose ... */
  lemma RunsThen<S, O>(exec: Piece<S, O>, s: S, ops: seq<O>, d: S, more: seq<O>, e: S)
    requires Runs(exec, s, ops, d) && Runs(exec, d, more, e)
    ensures Runs(exec, s, ops + more, e)
  {
    var n: nat :| RunSome(exec, s, ops, n) == Outcome(d, []);
    RunSomeAppend(exec, s, ops, more, n);
    var k: nat :| RunSome(exec, s, ops + more, k) == Outcome(d, more);
    var m: nat :| RunSome(exec, d, more, m) == Outcome(e, []);
    RunSomeMore(exec, s, ops + more, k, m);
  }

  /** ... and have one end only. */
  lemma RunsUnique<S, O>(exec: Piece<S, O>, s: S, ops: seq<O>, d: S, e: S)
    requires Runs(exec, s, ops, d) && Runs(exec, s, ops, e)
    ensures d == e
  {
    var n: nat :| RunSome(exec, s, ops, n) == Outcome(d, []);
    var k: nat :| RunSome(exec, s, ops, k) == Outcome(e, []);
    RunSomeMore(exec, s, ops, n, k);
    RunSomeMore(exec, s, ops, k, n);
  }

  lemma RunsOne<S, O>(exec: Piece<S, O>, s: S, op: O, ops: seq<O>, d: S)
    requires Runs(exec, exec(s, op).state, exec(s, op).next + ops, d)
    ensures Runs(exec, s, [op] + ops, d)
  {
    var e := exec(s, op);
    var n: nat :| RunSome(exec, e.state, e.next + ops, n) == Outcome(d, []);
    assert ([op] + ops)[1..] == ops;
    assert RunSome(exec, s, [op] + ops, n + 1) == Outcome(d, []);
  }

  lemma RunsNone<S, O>(exec: Piece<S, O>, s: S)
    ensures Runs(exec, s, [], s)
  {
    assert RunSome(exec, s, [], 0) == Outcome(s, []);
  }

  /** A piece that leaves nothing further to do. */
  lemma RunsLast<S, O>(exec: Piece<S, O>, s: S, op: O)
    requires exec(s, op).next == []
    ensures Runs(exec, s, [op], exec(s, op).state)
  {
    RunsNone(exec, exec(s, op).state);
    assert exec(s, op).next + [] == [];
    RunsOne(exec, s, op, [], exec(s, op).state);
    assert [op] + [] == [op];
  }

  /** A piece that goes on with further pieces. */
  lemma RunsOn<S, O>(exec: Piece<S, O>, s: S, op: O, d: S)
    requires Runs(exec, exec(s, op).state, exec(s, op).next, d)
    ensures Runs(exec, s, [op], d)
  {
    assert exec(s, op).next + [] == exec(s, op).next;
    RunsOne(exec, s, op, [], d);
    assert [op] + [] == [op];
  }
}
