/** The running system: the tables, and the run of the pipeline machine that led to them.
    The ingester and the process loop share one, and each commit either makes is recorded as
    a step of the machine, so what is proved of the machine's runs holds of their code. */
module Runtime {
  import opened Store
  import P = Pipeline

  class System {
    const db: Database
    ghost var past: seq<P.Step>
    ghost var world: P.World

    ghost predicate Coherent()
      reads this
    {
      world == P.Run(P.Start(), past)
    }

    ghost predicate Valid()
      reads this, db
    {
      Coherent() && world.t == db.Snapshot()
    }

    /** Starts over tables that some run has left, as after a restart. */
    constructor (db: Database, ghost past: seq<P.Step>)
      requires P.Run(P.Start(), past).t == db.Snapshot()
      ensures Valid() && this.db == db && this.past == past
    {
      this.db, this.past, this.world := db, past, P.Run(P.Start(), past);
    }

    /** The machine takes the step that the tables have taken. */
    ghost method Follow(s: P.Step)
      requires Coherent() && P.Next(world, s).t == db.Snapshot()
      modifies this
      ensures Valid() && world == P.Next(old(world), s) && past == old(past) + [s]
    {
      assert (past + [s])[..|past|] == past;
      past := past + [s];
      world := P.Next(world, s);
    }
  }
}
