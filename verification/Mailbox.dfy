/** The mailbox as an object: between calls, what is sent is what is received. */
module Mailbox {
  import opened QueueSpec
  import YP = YPipe

  /** A kernel counter: writing adds to it, reading takes all of it. */
  class Signaler {
    var count: nat

    constructor ()
      ensures count == 0
    {
      count := 0;
    }

    method Send()
      modifies this
      ensures count == old(count) + 1
    {
      count := count + 1;
    }

    /** Take one signal; if two were merged, one is put back. */
    method Recv()
      requires 1 <= count <= 2
      modifies this
      ensures count == old(count) - 1
    {
      var dummy := count;
      count := 0;
      if dummy == 2 {
        count := count + 1;
        return;
      }
      assert dummy == 1;
    }
  }

  class Mailbox<C(0)> {
    const cpipe: YP.Pipe<C>
    const signaler: Signaler
    var active: bool

    ghost predicate Valid()
      reads this, signaler, cpipe, cpipe.queue, cpipe.queue.repr
      ensures Valid() ==> cpipe.Valid()
    {
      && cpipe.Valid() && Apart()
      && cpipe.Items().complete == [] && cpipe.Items().partial == []
      && (if active then !cpipe.Items().asleep && signaler.count == 1
          else if cpipe.Items().asleep then signaler.count == 0 && cpipe.Items().flushed == []
          else signaler.count == 1 && cpipe.Items().flushed != [])
    }

    ghost predicate Apart()
      reads cpipe, cpipe.queue
    {
      signaler !in cpipe.Footprint() && this !in cpipe.Footprint()
    }

    /** Commands sent and not received. */
    ghost function Unread(): seq<C>
      reads this, signaler, cpipe, cpipe.queue, cpipe.queue.repr
      requires Valid()
    {
      cpipe.Items().flushed
    }

    ghost function Received(): seq<C>
      reads this, signaler, cpipe, cpipe.queue, cpipe.queue.repr
      requires Valid()
    {
      cpipe.Items().taken
    }

    /** The first read puts the reader of the pipe to sleep. */
    constructor (n: nat)
      requires n > 0
      ensures Valid() && fresh(cpipe.Footprint()) && fresh(signaler) && Unread() == [] && Received() == []
    {
      hide YP.Pipe.Valid, YP.Pipe.Items;
      cpipe := new YP.Pipe<C>(n);
      signaler := new Signaler();
      active := false;
      new;
      var ok := cpipe.Read();
      assert ok == None;
    }

    method Send(cmd: C)
      requires Valid()
      modifies cpipe.Footprint(), signaler
      ensures Valid() && fresh(cpipe.Footprint() - old(cpipe.Footprint()))
      ensures Unread() == old(Unread()) + [cmd] && Received() == old(Received())
    {
      hide YP.Pipe.Valid, YP.Pipe.Items;
      cpipe.Write(cmd, false);
      var ok := cpipe.Flush();
      if !ok {
        signaler.Send();
      }
    }

    /** The next command, or nothing when the wait runs out with no signal. */
    method Recv() returns (cmd: Option<C>)
      requires Valid()
      modifies this, cpipe.Footprint(), signaler
      ensures Valid() && cpipe.Footprint() == old(cpipe.Footprint())
      ensures if old(Unread()) == [] then cmd == None && Unread() == [] && Received() == old(Received())
              else cmd == Some(old(Unread())[0]) && Unread() == old(Unread())[1..] && Received() == old(Received()) + [cmd.value]
    {
      hide YP.Pipe.Valid, YP.Pipe.Items;
      if active {
        cmd := cpipe.Read();
        if cmd != None {
          return;
        }
        active := false;
        signaler.Recv();
      }
      if signaler.count == 0 {
        return None;
      }
      active := true;
      cmd := cpipe.Read();
      assert cmd != None;
    }
  }
}
