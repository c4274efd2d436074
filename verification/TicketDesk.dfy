/** The dispenser's loop, run as a program, and as the transition system has it. */
module TicketDesk {
  import opened Settings
  import opened Protocol

  class TicketCounter {
    var counter: nat

    constructor ()
      ensures counter == 0
    {
      counter := 0;
    }

    /** One request: the reply is the message the transition system sends, and the counter moves on. */
    method Serve(user: int) returns (reply: Msg)
      modifies this
      ensures reply == GiveTicket(user, old(counter)) && counter == old(counter) + 1
    {
      reply := GiveTicket(user, counter);
      counter := counter + 1;
    }

    /** A run of requests: consecutive numbers from the counter on, one to each sender, so none twice. */
    method ServeAll(users: seq<int>) returns (replies: seq<Msg>)
      modifies this
      ensures counter == old(counter) + |users| && |replies| == |users|
      ensures forall i | 0 <= i < |users| :: replies[i] == GiveTicket(users[i], old(counter) + i)
      ensures forall i, j | 0 <= i < j < |replies| :: replies[i].body != replies[j].body
    {
      replies := [];
      var i := 0;
      while i < |users|
        invariant i <= |users| && |replies| == i && counter == old(counter) + i
        invariant forall j | 0 <= j < i :: replies[j] == GiveTicket(users[j], old(counter) + j)
      {
        var reply := Serve(users[i]);
        replies := replies + [reply];
        i := i + 1;
      }
    }
  }

  lemma Receives(c: Config, s: State, m: Msg)
    requires Enabled(c, s, DispenserStep(DReceive(m))) && m.body.TicketRequest?
    ensures var s' := Apply(c, s, DispenserStep(DReceive(m)));
            && Running(s') && s'.dispenser == Dispenser(Holding(m.body.sender), s.dispenser.counter)
            && s'.queue == s.queue - multiset{m}
  {
  }

  lemma Replies(c: Config, s: State, u: int)
    requires Running(s) && s.dispenser.pc == Holding(u)
    ensures Enabled(c, s, DispenserStep(DReply(true)))
    ensures var s' := Apply(c, s, DispenserStep(DReply(true)));
            && Running(s') && s'.dispenser == Dispenser(Replied, s.dispenser.counter)
            && s'.queue == s.queue + multiset{GiveTicket(u, s.dispenser.counter)}
  {
  }

  lemma Counts(c: Config, s: State)
    requires Running(s) && s.dispenser.pc == Replied
    ensures Enabled(c, s, DispenserStep(DCount))
    ensures var s' := Apply(c, s, DispenserStep(DCount));
            s'.dispenser == Dispenser(Idle, s.dispenser.counter + 1) && s'.queue == s.queue
  {
  }

  /** What the three steps of the dispenser do together, when the reply can be sent. */
  lemma RoundOfThree(c: Config, s: State, m: Msg)
    requires Enabled(c, s, DispenserStep(DReceive(m))) && m.body.TicketRequest?
    ensures var s1 := Apply(c, s, DispenserStep(DReceive(m)));
            && Enabled(c, s1, DispenserStep(DReply(true)))
            && var s2 := Apply(c, s1, DispenserStep(DReply(true)));
               && Enabled(c, s2, DispenserStep(DCount))
               && var s3 := Apply(c, s2, DispenserStep(DCount));
                  && s3.dispenser == Dispenser(Idle, s.dispenser.counter + 1)
                  && s3.queue == s.queue - multiset{m} + multiset{GiveTicket(m.body.sender, s.dispenser.counter)}
  {
    var s1 := Apply(c, s, DispenserStep(DReceive(m)));
    Receives(c, s, m);
    Replies(c, s1, m.body.sender);
    Counts(c, Apply(c, s1, DispenserStep(DReply(true))));
  }
}
