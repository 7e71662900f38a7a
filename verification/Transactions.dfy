/** Nested `transaction` blocks over one connection: the outermost block is a
    database transaction, every inner one a savepoint. */
module Transactions {

  /** A row change; the database is the list of changes that took effect. */
  type Row = string

  /** What a controller thread does with a connection: any nesting of blocks,
      with exceptions raised and caught, and the process killed, anywhere. */
  datatype Program =
    | Skip
    | Execute(row: Row)
    | Raise
    | Die
    | Seq(first: Program, second: Program)
    | Catch(guarded: Program)
    | Transaction(body: Program)

  datatype Exit = Normal | Raised | Died

  function ExitOf(p: Program): Exit {
    match p
    case Skip => Normal
    case Execute(_) => Normal
    case Raise => Raised
    case Die => Died
    case Seq(first, second) => if ExitOf(first).Normal? then ExitOf(second) else ExitOf(first)
    case Catch(guarded) => if ExitOf(guarded).Raised? then Normal else ExitOf(guarded)
    case Transaction(body) => ExitOf(body)
  }

  // ---------- the reference meaning ----------

  /** A statement that ran, with how each block around it was left, innermost
      block last. */
  datatype Executed = Executed(row: Row, blocks: seq<Exit>)

  function Trace(p: Program, blocks: seq<Exit>): seq<Executed> {
    match p
    case Execute(row) => [Executed(row, blocks)]
    case Seq(first, second) =>
      Trace(first, blocks) + (if ExitOf(first).Normal? then Trace(second, blocks) else [])
    case Catch(guarded) => Trace(guarded, blocks)
    case Transaction(body) => Trace(body, blocks + [ExitOf(body)])
    case _ => []
  }

  predicate LeftNormally(blocks: seq<Exit>) {
    forall exit | exit in blocks :: exit.Normal?
  }

  /** The writes whose whole chain of enclosing blocks exited normally. */
  function Survivors(trace: seq<Executed>): seq<Row>
    decreases |trace|
  {
    if trace == [] then []
    else (if LeftNormally(trace[0].blocks) then [trace[0].row] else []) + Survivors(trace[1..])
  }

  lemma {:induction false} SurvivorsConcat(front: seq<Executed>, back: seq<Executed>)
    ensures Survivors(front + back) == Survivors(front) + Survivors(back)
    decreases |front|
  {
    if front == [] {
      assert front + back == back;
    } else {
      assert (front + back)[1..] == front[1..] + back;
      SurvivorsConcat(front[1..], back);
    }
  }

  /** Nothing inside a block that was not left normally survives. */
  lemma {:induction false} BrokenChainLosesAll(p: Program, blocks: seq<Exit>)
    requires !LeftNormally(blocks)
    ensures Survivors(Trace(p, blocks)) == []
    decreases p
  {
    match p
    case Seq(first, second) =>
      BrokenChainLosesAll(first, blocks);
      BrokenChainLosesAll(second, blocks);
      SurvivorsConcat(Trace(first, blocks), Trace(second, blocks));
      assert Trace(first, blocks) + [] == Trace(first, blocks);
    case Catch(guarded) => BrokenChainLosesAll(guarded, blocks);
    case Transaction(body) =>
      var bad :| bad in blocks && !bad.Normal?;
      assert bad in blocks + [ExitOf(body)];
      BrokenChainLosesAll(body, blocks + [ExitOf(body)]);
    case _ =>
  }

  /** Blocks that were left normally do not matter. */
  lemma {:induction false} NormalChainIsTransparent(p: Program, blocks: seq<Exit>)
    requires LeftNormally(blocks)
    ensures Survivors(Trace(p, blocks)) == Survivors(Trace(p, []))
    decreases p
  {
    match p
    case Seq(first, second) =>
      NormalChainIsTransparent(first, blocks);
      NormalChainIsTransparent(second, blocks);
      SurvivorsConcat(Trace(first, blocks), Trace(second, blocks));
      SurvivorsConcat(Trace(first, []), Trace(second, []));
      assert Trace(first, blocks) + [] == Trace(first, blocks);
      assert Trace(first, []) + [] == Trace(first, []);
    case Catch(guarded) => NormalChainIsTransparent(guarded, blocks);
    case Transaction(body) =>
      var inner := blocks + [ExitOf(body)];
      if ExitOf(body).Normal? {
        assert LeftNormally(inner) && LeftNormally([] + [ExitOf(body)]);
        NormalChainIsTransparent(body, inner);
        NormalChainIsTransparent(body, [] + [ExitOf(body)]);
      } else {
        assert ExitOf(body) in inner && ExitOf(body) in [] + [ExitOf(body)];
        BrokenChainLosesAll(body, inner);
        BrokenChainLosesAll(body, [] + [ExitOf(body)]);
      }
    case _ =>
  }

  lemma SurvivorsOfBlock(body: Program)
    ensures Survivors(Trace(Transaction(body), []))
         == if ExitOf(body).Normal? then Survivors(Trace(body, [])) else []
  {
    var blocks := [] + [ExitOf(body)];
    if ExitOf(body).Normal? {
      NormalChainIsTransparent(body, blocks);
    } else {
      assert ExitOf(body) in blocks;
      BrokenChainLosesAll(body, blocks);
    }
  }

  lemma SurvivorsOfSequence(first: Program, second: Program)
    ensures Survivors(Trace(Seq(first, second), []))
         == if ExitOf(first).Normal? then Survivors(Trace(first, [])) + Survivors(Trace(second, []))
            else Survivors(Trace(first, []))
  {
    SurvivorsConcat(Trace(first, []), Trace(second, []));
    assert Trace(first, []) + [] == Trace(first, []);
  }

  lemma SurvivorsOfLeaf(p: Program)
    ensures p.Execute? ==> Survivors(Trace(p, [])) == [p.row]
    ensures p.Skip? || p.Raise? || p.Die? ==> Survivors(Trace(p, [])) == []
    ensures p.Catch? ==> Trace(p, []) == Trace(p.guarded, [])
  {
  }

  // ---------- the connection ----------

  datatype Savepoint = Savepoint(name: string, snapshot: seq<Row>)

  class Connection {
    /** What a restarted process finds. */
    var committed: seq<Row>
    /** What this connection sees. */
    var working: seq<Row>
    var inTransaction: bool
    var savepoints: seq<Savepoint>

    predicate Idle()
      reads this
    {
      !inTransaction && savepoints == [] && working == committed
    }

    constructor ()
      ensures Idle() && committed == []
    {
      committed, working, inTransaction, savepoints := [], [], false, [];
    }

    /** A statement commits by itself outside a transaction. */
    method ExecuteStatement(row: Row)
      modifies this
      ensures working == old(working) + [row]
      ensures inTransaction == old(inTransaction) && savepoints == old(savepoints)
      ensures committed == if inTransaction then old(committed) else working
    {
      working := working + [row];
      if !inTransaction {
        committed := working;
      }
    }

    method Begin()
      requires Idle()
      modifies this
      ensures inTransaction && savepoints == [] && working == old(working) && committed == old(committed)
    {
      inTransaction := true;
    }

    method Commit()
      requires inTransaction
      modifies this
      ensures Idle() && committed == old(working)
    {
      committed, inTransaction, savepoints := working, false, [];
    }

    method Rollback()
      requires inTransaction
      modifies this
      ensures Idle() && committed == old(committed)
    {
      working, inTransaction, savepoints := committed, false, [];
    }

    method CreateSavepoint(name: string)
      modifies this`savepoints
      ensures savepoints == old(savepoints) + [Savepoint(name, working)]
    {
      savepoints := savepoints + [Savepoint(name, working)];
    }

    /** The most recent savepoint of that name. */
    method Find(name: string) returns (i: nat)
      requires exists k :: 0 <= k < |savepoints| && savepoints[k].name == name
      ensures i < |savepoints| && savepoints[i].name == name
      ensures forall k | i < k < |savepoints| :: savepoints[k].name != name
    {
      i := |savepoints| - 1;
      while savepoints[i].name != name
        invariant i < |savepoints|
        invariant forall k | i < k < |savepoints| :: savepoints[k].name != name
        decreases i
      {
        i := i - 1;
      }
    }

    /** Undoes everything since the savepoint, which stays open. */
    method RollbackTo(name: string)
      requires exists k :: 0 <= k < |savepoints| && savepoints[k].name == name
      modifies this`working, this`savepoints
      ensures exists i :: 0 <= i < |old(savepoints)| && old(savepoints)[i].name == name
                && (forall k | i < k < |old(savepoints)| :: old(savepoints)[k].name != name)
                && working == old(savepoints)[i].snapshot && savepoints == old(savepoints)[..i + 1]
    {
      var i := Find(name);
      working := savepoints[i].snapshot;
      savepoints := savepoints[..i + 1];
    }

    /** Merges the savepoint, and any opened after it, into what encloses it. */
    method ReleaseSavepoint(name: string)
      requires exists k :: 0 <= k < |savepoints| && savepoints[k].name == name
      modifies this`savepoints
      ensures exists i :: 0 <= i < |old(savepoints)| && old(savepoints)[i].name == name
                && (forall k | i < k < |old(savepoints)| :: old(savepoints)[k].name != name)
                && savepoints == old(savepoints)[..i]
    {
      var i := Find(name);
      savepoints := savepoints[..i];
    }

    /** The `transaction` context manager around `body`.  The savepoint name is
        arbitrary: even a repeated name would be resolved correctly. */
    method RunTransaction(body: Program) returns (exit: Exit)
      requires inTransaction || Idle()
      modifies this
      ensures exit == ExitOf(body)
      ensures !old(inTransaction) ==>
                && committed == old(committed) + Survivors(Trace(Transaction(body), []))
                && (!exit.Died? ==> Idle())
      ensures old(inTransaction) ==>
                && committed == old(committed)
                && (!exit.Died? ==>
                      && inTransaction && savepoints == old(savepoints)
                      && working == old(working) + Survivors(Trace(Transaction(body), [])))
      decreases body, 1
    {
      SurvivorsOfBlock(body);
      if inTransaction {
        var name: string := *;
        CreateSavepoint(name);
        assert savepoints[|savepoints| - 1].name == name;
        exit := Run(body);
        if exit.Died? {
          return;
        }
        assert savepoints == old(savepoints) + [Savepoint(name, old(working))];
        assert savepoints[|savepoints| - 1].name == name;
        if exit.Raised? {
          RollbackTo(name);
          assert savepoints == old(savepoints) + [Savepoint(name, old(working))];
          assert savepoints[|savepoints| - 1].name == name;
        }
        ReleaseSavepoint(name);
      } else {
        Begin();
        exit := Run(body);
        if exit.Died? {
          return;
        }
        if exit.Raised? {
          Rollback();
        } else {
          Commit();
        }
      }
    }

    /** Any program: what survives is exactly what the reference meaning says,
        and a kill at any point loses precisely the blocks still open. */
    method Run(p: Program) returns (exit: Exit)
      requires inTransaction || Idle()
      modifies this
      ensures exit == ExitOf(p)
      ensures !old(inTransaction) ==>
                && committed == old(committed) + Survivors(Trace(p, []))
                && (!exit.Died? ==> Idle())
      ensures old(inTransaction) ==>
                && committed == old(committed)
                && (!exit.Died? ==>
                      && inTransaction && savepoints == old(savepoints)
                      && working == old(working) + Survivors(Trace(p, [])))
      decreases p, 0
    {
      hide Survivors, Trace;
      SurvivorsOfLeaf(p);
      match p
      case Skip => exit := Normal;
      case Execute(row) =>
        ExecuteStatement(row);
        exit := Normal;
      case Raise => exit := Raised;
      case Die => exit := Died;
      case Seq(first, second) =>
        SurvivorsOfSequence(first, second);
        assert old(working) + (Survivors(Trace(first, [])) + Survivors(Trace(second, [])))
            == old(working) + Survivors(Trace(first, [])) + Survivors(Trace(second, []));
        assert old(committed) + (Survivors(Trace(first, [])) + Survivors(Trace(second, [])))
            == old(committed) + Survivors(Trace(first, [])) + Survivors(Trace(second, []));
        exit := Run(first);
        if exit.Normal? {
          exit := Run(second);
        }
      case Catch(guarded) =>
        exit := Run(guarded);
        if exit.Raised? {
          exit := Normal;
        }
      case Transaction(body) =>
        exit := RunTransaction(body);
    }
  }

  /** Atomicity: one block either keeps all of what its surviving inner blocks
      wrote or nothing, and it keeps something only if it was left normally. */
  lemma BlockIsAllOrNothing(body: Program)
    ensures Survivors(Trace(Transaction(body), [])) == Survivors(Trace(body, []))
         || Survivors(Trace(Transaction(body), [])) == []
    ensures !ExitOf(body).Normal? ==> Survivors(Trace(Transaction(body), [])) == []
  {
    SurvivorsOfBlock(body);
  }
}
