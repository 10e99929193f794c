/**
  Two runs of the doorbell contact that its comments do not expect: mail left unannounced by a pass that
  failed, and a notice withdrawn after the contact closed.
*/
module DurableCases {
  import opened Listing
  import opened Option
  import opened DurableModel
  import DurableMail

  const CALM: Io := Io(NoFault, true, true)

  lemma AscendingOne(n: Name)
    ensures Ascending({n}) == [n]
  {
    var r := Ascending({n});
    assert n in r;
    assert forall i :: 0 <= i < |r| ==> r[i] in r;
  }

  /** The message 1 lies in the mailbox and the bridge's tools are being listed. */
  ghost predicate Listed(s: State) {
    && s.life.phase == Attaching && s.life.attachPc == Listing
    && s.bell == Initial.bell && s.gate == Initial.gate && s.mail == Initial.mail.(box := map[1 := Fresh])
  }

  lemma ToListed() returns (run: seq<Event>)
    ensures Listed(Run(run))
  {
    var e1, e2, e3 := EAttach(true), EConnect(true), EArrive(1);
    assert Run([]) == Initial;
    RunSnoc([], e1);
    RunSnoc([] + [e1], e2);
    RunSnoc([] + [e1] + [e2], e3);
    run := [] + [e1] + [e2] + [e3];
  }

  // ---- an orphan --------------------------------------------------------------------

  lemma CountFailsOrphans(s: State)
    requires Listed(s)
    ensures var t := Step(s, EList(true, ArmSucceeds, Io(CountFails, true, true)));
      && t.life.phase == Ready && t.gate.pass.None?
      && DurableMail.Unread(t.mail, 1) && t.mail.notices == []
  {
    assert WithMark(s.mail.box, Fresh) == {1};
    AscendingOne(1);
    assert 1 in Names([1]);
  }

  /** A contact that is ready, whose first pass stamped a message and then failed: nobody holds a notice of it. */
  lemma OrphanedMessage() returns (run: seq<Event>)
    ensures var s := Run(run);
      s.life.phase != Closed && s.gate.pass.None? && DurableMail.Unread(s.mail, 1) && !DurableMail.Held(s.mail, 1)
  {
    var before := ToListed();
    var e := EList(true, ArmSucceeds, Io(CountFails, true, true));
    CountFailsOrphans(Run(before));
    RunSnoc(before, e);
    run := before + [e];
  }

  // ---- a withdraw after close -------------------------------------------------------

  const FIRST: Notice := Notice(0, 1, [1])
  const SECOND: Notice := Notice(1, 2, [2])

  /** Armed, the gate held by a pass that announces `name` and by nothing else. */
  ghost predicate Passing(s: State, box: Box, notices: seq<Notice>, name: Name) {
    && s.life.phase == Ready && s.life.promise == Released
    && s.bell.armed && s.bell.inbox && s.bell.signal && s.bell.watchOpen
    && s.gate.gated && !s.gate.pending && s.gate.waiters == [] && s.gate.readers == map[]
    && s.gate.pass.Some? && s.gate.pass.value.names == [name]
    && s.mail.box == box && s.mail.notices == notices == s.mail.issued && s.mail.withdrawals == []
  }

  ghost predicate Resting(s: State, box: Box, notices: seq<Notice>) {
    && s.life.phase == Ready && s.life.promise == Released
    && s.bell.armed && s.bell.inbox && s.bell.signal && s.bell.watchOpen
    && s.gate == Initial.gate
    && s.mail.box == box && s.mail.notices == notices == s.mail.issued && s.mail.withdrawals == []
  }

  lemma FreshRound(b: Bell, m: Mail, why: Why, n: Name)
    requires b.signal && WithMark(m.box, Fresh) == {n}
    ensures var sent := StampMail(m, {n});
      Round(b, m, why, CALM) == RoundEnd(b, sent, Some(Pass(why, [n], |WithMark(sent.box, Delivered)|)))
  {
    AscendingOne(n);
    assert Names([n]) == {n};
  }

  lemma StartupRing(s: State)
    requires s.life.phase == Ready && s.life.promise == Released
    requires s.bell == Publish(Initial.bell) && s.gate == Initial.gate && s.mail == Initial.mail.(box := map[1 := Fresh])
    ensures Passing(Ring(s, Startup, CALM), map[1 := Delivered], [], 1)
  {
    assert WithMark(s.mail.box, Fresh) == {1};
    assert Stamp(map[1 := Fresh], {1}) == map[1 := Delivered];
    FreshRound(s.bell, s.mail.(signalled := s.mail.signalled + {1}), Startup, 1);
  }

  lemma StartupPass(s: State)
    requires Listed(s)
    ensures Passing(Step(s, EList(true, ArmSucceeds, CALM)), map[1 := Delivered], [], 1)
  {
    StartupRing(s.(life := GoReady(s.life), bell := Publish(s.bell)));
  }

  lemma PassAdmitted(s: State, box: Box, notices: seq<Notice>, name: Name)
    requires Passing(s, box, notices, name)
    ensures Resting(Step(s, EAdmit(CALM)), box, notices + [Notice(|notices|, name, [name])])
  {}

  lemma SecondRings(s: State)
    requires Resting(s, map[1 := Delivered, 2 := Fresh], [FIRST])
    ensures Passing(Step(s, ESignal(CALM)), map[1 := Delivered, 2 := Delivered], [FIRST], 2)
  {
    SecondFresh();
    FreshRound(s.bell, s.mail.(signalled := s.mail.signalled + {2}), Signal, 2);
  }

  lemma SecondFresh()
    ensures WithMark(map[1 := Delivered, 2 := Fresh], Fresh) == {2}
    ensures Stamp(map[1 := Delivered, 2 := Fresh], {2}) == map[1 := Delivered, 2 := Delivered]
  {}

  lemma SecondArrives(s: State)
    requires Resting(s, map[1 := Delivered], [FIRST])
    ensures Resting(Step(s, EArrive(2)), map[1 := Delivered, 2 := Fresh], [FIRST])
  {}

  /** Both notices held and a read at the bridge, which has archived both messages. */
  lemma ReadDrains(s: State)
    requires Resting(s, map[1 := Delivered, 2 := Delivered], [FIRST, SECOND])
    ensures var t := Step(Step(Step(Step(s, ERead(7)), ECall(7)), EArchive(1)), EArchive(2));
      && AtPc(t, 7, Calling) && t.bell.inbox && t.mail.notices == [FIRST, SECOND] && t.mail.withdrawals == []
      && t.mail.box == map[1 := Archived, 2 := Archived]
  {}

  lemma FirstAsked(s: State)
    requires AtPc(s, 7, Calling) && s.bell.inbox && s.mail.notices == [FIRST, SECOND] && s.mail.withdrawals == []
    requires s.mail.box == map[1 := Archived, 2 := Archived]
    ensures var t := Step(s, EAnswer(7, true));
      AtPc(t, 7, Aborting(FIRST, {}, [SECOND])) && t.mail.withdrawals == [Withdrawal(FIRST, {})]
  {
    assert WithMark(s.mail.box, Delivered) == {};
    assert [FIRST, SECOND][1..] == [SECOND];
  }

  lemma AskedAfterClose(s: State)
    requires AtPc(s, 7, Aborting(FIRST, {}, [SECOND]))
    ensures var t := Step(s, EClose(CALM));
      && t.life.phase == Closed && t.mail.withdrawals == s.mail.withdrawals
      && Step(t, EWithdrawn(7, true)).mail.withdrawals == s.mail.withdrawals + [Withdrawal(SECOND, {})]
  {}

  lemma ToResting() returns (run: seq<Event>)
    ensures Resting(Run(run), map[1 := Delivered, 2 := Delivered], [FIRST, SECOND])
  {
    var listed := ToListed();
    var e1, e2, e3, e4 := EList(true, ArmSucceeds, CALM), EAdmit(CALM), EArrive(2), ESignal(CALM);
    StartupPass(Run(listed));
    RunSnoc(listed, e1);
    var r1 := listed + [e1];
    PassAdmitted(Run(r1), map[1 := Delivered], [], 1);
    RunSnoc(r1, e2);
    var r2 := r1 + [e2];
    assert [] + [FIRST] == [FIRST];
    SecondArrives(Run(r2));
    RunSnoc(r2, e3);
    SecondRings(Run(r2 + [e3]));
    RunSnoc(r2 + [e3], e4);
    var r4 := r2 + [e3] + [e4];
    PassAdmitted(Run(r4), map[1 := Delivered, 2 := Delivered], [FIRST], 2);
    RunSnoc(r4, e2);
    assert [FIRST] + [SECOND] == [FIRST, SECOND];
    run := r4 + [e2];
  }

  lemma ToAborting() returns (run: seq<Event>)
    ensures AtPc(Run(run), 7, Aborting(FIRST, {}, [SECOND])) && Run(run).mail.withdrawals == [Withdrawal(FIRST, {})]
  {
    var r := ToResting();
    var e1, e2, e3, e4, e5 := ERead(7), ECall(7), EArchive(1), EArchive(2), EAnswer(7, true);
    ReadDrains(Run(r));
    RunSnoc(r, e1);
    RunSnoc(r + [e1], e2);
    RunSnoc(r + [e1] + [e2], e3);
    RunSnoc(r + [e1] + [e2] + [e3], e4);
    var r4 := r + [e1] + [e2] + [e3] + [e4];
    FirstAsked(Run(r4));
    RunSnoc(r4, e5);
    run := r4 + [e5];
  }

  /** A closed contact that asks for one more withdraw: its loop was awaiting the first one when `close` ran. */
  lemma WithdrawsAfterClose() returns (run: seq<Event>, e: Event)
    ensures Run(run).life.phase == Closed && Run(run).mail.withdrawals == [Withdrawal(FIRST, {})]
    ensures Run(run + [e]).mail.withdrawals == [Withdrawal(FIRST, {}), Withdrawal(SECOND, {})]
  {
    var r := ToAborting();
    AskedAfterClose(Run(r));
    RunSnoc(r, EClose(CALM));
    run, e := r + [EClose(CALM)], EWithdrawn(7, true);
    RunSnoc(run, e);
    assert [Withdrawal(FIRST, {})] + [Withdrawal(SECOND, {})] == [Withdrawal(FIRST, {}), Withdrawal(SECOND, {})];
  }
}
