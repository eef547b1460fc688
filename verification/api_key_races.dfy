/** Runs on which the accounting of API-key usage goes wrong, each one that a single process can produce. */
module ApiKeyRaces {
  import opened Wrappers
  import opened ApiKeyUsage

  lemma {:induction false} RunConcat(s: State, xs: seq<Step>, ys: seq<Step>)
    ensures Run(s, xs + ys) == Run(Run(s, xs), ys)
    decreases |xs|
  {
    if xs == [] {
      assert xs + ys == ys;
    } else {
      RunConcat(Next(s, xs[0]), xs[1..], ys);
      assert (xs + ys)[1..] == xs[1..] + ys;
    }
  }

  lemma RunOne(s: State, a: Step)
    ensures Run(s, [a]) == Next(s, a)
  {
    assert [a][1..] == [];
  }

  lemma RunTwo(s: State, a: Step, b: Step)
    ensures Run(s, [a, b]) == Next(Next(s, a), b)
  {
    assert [a, b][1..] == [b];
    RunOne(Next(s, a), b);
  }

  /** The interceptor starts the initialisation and lets the stream go on. An event between its two commands is counted
      in a hash that the second one overwrites. */
  lemma FirstStreamForgets(doc: Doc)
    requires Validate(Some(doc)).Ok?
    ensures var s := Run(Fresh(doc, 1), [Admit(0), CheckExists(0), Bump(0), Reply(0), WriteHash(0)]);
            && Settled(s) && s.inits == map[] && s.doc == doc && s.increments == 1 && s.forgotten == 1
            && s.hash == Some(UsageHash(doc.usageCount, true))
  {
  }

  /** Two streams are admitted and both find no hash. The first one initialises and counts; the second then
      overwrites the hash with the count it was admitted with, and the increment is forgotten. */
  lemma LateInitForgets(doc: Doc)
    requires Validate(Some(doc)).Ok?
    ensures var s := Run(Fresh(doc, 1), [Admit(0), Admit(1), CheckExists(0), CheckExists(1)]
                                        + [WriteHash(0), Bump(0)] + [Reply(0), WriteHash(1)]);
            && Settled(s) && s.inits == map[] && s.increments == 1 && s.forgotten == 1
            && s.hash == Some(UsageHash(doc.usageCount, true))
  {
    var s0 := Fresh(doc, 1);
    var found := [Admit(0), Admit(1), CheckExists(0), CheckExists(1)];
    BothFindNone(doc);
    SecondOverwrites(doc);
    RunConcat(s0, found, [WriteHash(0), Bump(0)]);
    RunConcat(s0, found + [WriteHash(0), Bump(0)], [Reply(0), WriteHash(1)]);
  }

  lemma SecondOverwrites(doc: Doc)
    ensures var s4 := Fresh(doc, 1).(inits := map[0 := Checked(doc.usageCount, false), 1 := Checked(doc.usageCount, false)]);
            var s := Run(Run(s4, [WriteHash(0), Bump(0)]), [Reply(0), WriteHash(1)]);
            && Settled(s) && s.inits == map[] && s.increments == 1 && s.forgotten == 1
            && s.hash == Some(UsageHash(doc.usageCount, true))
  {
    var s4 := Fresh(doc, 1).(inits := map[0 := Checked(doc.usageCount, false), 1 := Checked(doc.usageCount, false)]);
    var s6 := Next(Next(s4, WriteHash(0)), Bump(0));
    RunTwo(s4, WriteHash(0), Bump(0));
    RunTwo(s6, Reply(0), WriteHash(1));
    assert s6.inits == map[1 := Checked(doc.usageCount, false)];
    assert s6.processes == [Process(0, [], [] + [Answer(UsageHash(doc.usageCount + 1, true), 0)])];
  }

  lemma BothFindNone(doc: Doc)
    requires Validate(Some(doc)).Ok?
    ensures Run(Fresh(doc, 1), [Admit(0), Admit(1), CheckExists(0), CheckExists(1)]) ==
            Fresh(doc, 1).(inits := map[0 := Checked(doc.usageCount, false), 1 := Checked(doc.usageCount, false)])
  {
    var s0 := Fresh(doc, 1);
    var s2 := Next(Next(s0, Admit(0)), Admit(1));
    assert s2.inits == map[0 := Admitted(doc.usageCount), 1 := Admitted(doc.usageCount)];
    assert [Admit(0), Admit(1), CheckExists(0), CheckExists(1)] == [Admit(0), Admit(1)] + [CheckExists(0), CheckExists(1)];
    RunConcat(s0, [Admit(0), Admit(1)], [CheckExists(0), CheckExists(1)]);
    RunTwo(s0, Admit(0), Admit(1));
    RunTwo(s2, CheckExists(0), CheckExists(1));
  }

  /** n increments of the first process, each with its reply. */
  function Counted(n: nat): seq<Step> {
    if n == 0 then [] else [Bump(0), Reply(0)] + Counted(n - 1)
  }

  /** One process with nothing to look at, and a hash it is counting. */
  predicate Counting(s: State, h: nat, counter: nat) {
    && |s.processes| == 1 && s.processes[0].counter == counter && s.processes[0].replies == []
    && s.hash == Some(UsageHash(h, true))
  }

  lemma CountOne(s: State, h: nat, counter: nat)
    requires Counting(s, h, counter) && counter + 1 < SYNC_EVERY
    ensures var t := Run(s, [Bump(0), Reply(0)]);
            Counting(t, h + 1, counter + 1) && t.doc == s.doc && t.updates == s.updates && t.inits == s.inits
  {
    RunTwo(s, Bump(0), Reply(0));
  }

  lemma {:induction false} BelowThousand(s: State, h: nat, counter: nat, n: nat)
    requires Counting(s, h, counter) && counter + n < SYNC_EVERY
    ensures var t := Run(s, Counted(n));
            Counting(t, h + n, counter + n) && t.doc == s.doc && t.updates == s.updates && t.inits == s.inits
    decreases n
  {
    if n > 0 {
      CountOne(s, h, counter);
      RunConcat(s, [Bump(0), Reply(0)], Counted(n - 1));
      BelowThousand(Run(s, [Bump(0), Reply(0)]), h + 1, counter + 1, n - 1);
    }
  }

  lemma Thousandth(s: State, h: nat)
    requires Counting(s, h, 999)
    ensures var t := Next(Next(s, Bump(0)), Reply(0));
            Counting(t, h + 1, 0) && t.doc == s.doc && |t.updates| == |s.updates| + 1
            && t.updates[..|s.updates|] == s.updates && t.updates[|s.updates|].usageCount == h + 1
  {
  }

  /** A thousand increments, each with its reply. */
  function Thousand(n: nat): seq<Step>
    requires n + 1 == 1000
  {
    Counted(n) + [Bump(0), Reply(0)]
  }

  /** They send one update. */
  lemma ThousandSend(s: State, h: nat, n: nat)
    requires Counting(s, h, 0) && n + 1 == 1000
    ensures var t := Run(s, Thousand(n));
            && Counting(t, h + 1000, 0) && t.doc == s.doc
            && |t.updates| == |s.updates| + 1 && t.updates[..|s.updates|] == s.updates
            && t.updates[|s.updates|].usageCount == h + 1000
  {
    var t := Run(s, Counted(n));
    BelowThousand(s, h, 0, n);
    Thousandth(t, h + n);
    RunConcat(s, Counted(n), [Bump(0), Reply(0)]);
    RunTwo(t, Bump(0), Reply(0));
  }

  lemma Started(doc: Doc)
    requires Validate(Some(doc)).Ok?
    ensures var s := Run(Fresh(doc, 1), [Admit(0), CheckExists(0), WriteHash(0)]);
            Counting(s, doc.usageCount, 0) && s.doc == doc && s.updates == [] && s.inits == map[]
  {
    var s1 := Next(Fresh(doc, 1), Admit(0));
    assert [Admit(0), CheckExists(0), WriteHash(0)] == [Admit(0)] + [CheckExists(0), WriteHash(0)];
    RunConcat(Fresh(doc, 1), [Admit(0)], [CheckExists(0), WriteHash(0)]);
    RunOne(Fresh(doc, 1), Admit(0));
    RunTwo(s1, CheckExists(0), WriteHash(0));
  }

  lemma LandBackwards(s: State, h: nat, c: nat)
    requires Counting(s, h, 0) && |s.updates| == 2 && s.updates[0].usageCount == c
    ensures var t := Run(s, [Land(1), Land(0)]);
            Settled(t) && Counting(t, h, 0) && t.doc.usageCount == c
  {
    RunTwo(s, Land(1), Land(0));
  }

  /** Nobody waits for the updates either. When the second one lands first, Mongo ends up further behind than any
      process has counted, with nothing on its way that would correct it. */
  lemma UpdatesOvertake(doc: Doc, n: nat)
    requires Validate(Some(doc)).Ok? && n + 1 == 1000
    ensures var s := Run(Fresh(doc, 1), [Admit(0), CheckExists(0), WriteHash(0)] + Thousand(n) + Thousand(n)
                                        + [Land(1), Land(0)]);
            Settled(s) && Counting(s, doc.usageCount + 2000, 0) && s.doc.usageCount == doc.usageCount + 1000
  {
    var s0, start := Fresh(doc, 1), [Admit(0), CheckExists(0), WriteHash(0)];
    var s3 := Run(s0, start);
    var t := Run(s3, Thousand(n));
    Started(doc);
    ThousandSend(s3, doc.usageCount, n);
    ThousandSend(t, doc.usageCount + 1000, n);
    LandBackwards(Run(t, Thousand(n)), doc.usageCount + 2000, doc.usageCount + 1000);
    RunConcat(s0, start, Thousand(n));
    RunConcat(s0, start + Thousand(n), Thousand(n));
    RunConcat(s0, start + Thousand(n) + Thousand(n), [Land(1), Land(0)]);
  }

  /** A hash is lost while its key is in use. The next increment creates one without a key, a new stream finds it and
      leaves it alone, and Redis counts from zero, with no key to send updates for. */
  lemma CountsFromZero(doc: Doc)
    requires Validate(Some(doc)).Ok?
    ensures var s := Run(Fresh(doc, 1), [Admit(0), CheckExists(0), WriteHash(0)] + [Lose, Bump(0)]
                                        + [Reply(0), Admit(1)] + [CheckExists(1), WriteHash(1)]);
            Settled(s) && s.inits == map[] && s.doc == doc && s.hash == Some(UsageHash(1, false))
  {
    var s0, start := Fresh(doc, 1), [Admit(0), CheckExists(0), WriteHash(0)];
    Started(doc);
    RunConcat(s0, start, [Lose, Bump(0)]);
    KeylessHash(Run(s0, start), doc.usageCount);
    RunConcat(s0, start + [Lose, Bump(0)], [Reply(0), Admit(1)]);
    RunConcat(s0, start + [Lose, Bump(0)] + [Reply(0), Admit(1)], [CheckExists(1), WriteHash(1)]);
  }

  lemma KeylessHash(s: State, h: nat)
    requires Counting(s, h, 0) && s.updates == [] && s.inits == map[] && Validate(Some(s.doc)).Ok?
    ensures var t := Run(Run(Run(s, [Lose, Bump(0)]), [Reply(0), Admit(1)]), [CheckExists(1), WriteHash(1)]);
            Settled(t) && t.inits == map[] && t.doc == s.doc && t.hash == Some(UsageHash(1, false))
  {
    var s2 := Run(s, [Lose, Bump(0)]);
    var s4 := Run(s2, [Reply(0), Admit(1)]);
    RunTwo(s, Lose, Bump(0));
    RunTwo(s2, Reply(0), Admit(1));
    assert s4.inits == map[1 := Admitted(s.doc.usageCount)];
    RunTwo(s4, CheckExists(1), WriteHash(1));
  }

  lemma LostUnderReply(s: State, h: nat, n: nat)
    requires Counting(s, h, n) && n + 1 == 1000 && s.updates == [] && s.inits == map[]
    ensures var t := Run(s, [Bump(0), Lose]);
            && t.hash == None && t.doc == s.doc && t.updates == [] && t.inits == map[] && |t.processes| == 1
            && t.processes[0].counter == n && t.processes[0].replies == [Answer(UsageHash(h + 1, true), s.generation)]
  {
    RunTwo(s, Bump(0), Lose);
    assert [] + [Answer(UsageHash(h + 1, true), s.generation)] == [Answer(UsageHash(h + 1, true), s.generation)];
  }

  lemma StaleReply(s: State, c: nat, g: nat, n: nat)
    requires Validate(Some(s.doc)).Ok? && s.hash == None && s.inits == map[] && s.updates == [] && |s.processes| == 1
    requires s.processes[0].counter == n && n + 1 == 1000
    requires s.processes[0].replies == [Answer(UsageHash(c, true), g)]
    ensures var t := Run(s, [Reply(0), Admit(1)]);
            && t.hash == None && t.doc == s.doc && t.inits == map[1 := Admitted(s.doc.usageCount)]
            && |t.processes| == 1 && t.processes[0].replies == [] && |t.updates| == 1 && t.updates[0].usageCount == c
  {
    RunTwo(s, Reply(0), Admit(1));
  }

  lemma FoundNone(s: State)
    requires s.hash == None && s.inits == map[1 := Admitted(s.doc.usageCount)]
    ensures Run(s, [CheckExists(1), WriteHash(1)]) ==
            s.(inits := map[], hash := Some(UsageHash(s.doc.usageCount, true)))
  {
    RunTwo(s, CheckExists(1), WriteHash(1));
    assert Next(s, CheckExists(1)).inits == map[1 := Checked(s.doc.usageCount, false)];
  }

  /** A hash is lost under the thousandth reply, which comes all the same. */
  lemma LossUnderReply(doc: Doc, n: nat)
    requires Validate(Some(doc)).Ok? && n + 1 == 1000
    ensures var s := Run(Fresh(doc, 1), [Admit(0), CheckExists(0), WriteHash(0)] + Counted(n) + [Bump(0), Lose]
                                        + [Reply(0), Admit(1)]);
            && s.hash == None && s.doc == doc && s.inits == map[1 := Admitted(doc.usageCount)] && |s.processes| == 1
            && s.processes[0].replies == [] && |s.updates| == 1 && s.updates[0].usageCount == doc.usageCount + 1000
  {
    var s0, start := Fresh(doc, 1), [Admit(0), CheckExists(0), WriteHash(0)];
    var counted := start + Counted(n);
    Started(doc);
    RunConcat(s0, start, Counted(n));
    BelowThousand(Run(s0, start), doc.usageCount, 0, n);
    RunConcat(s0, counted, [Bump(0), Lose]);
    LostUnderReply(Run(s0, counted), doc.usageCount + n, n);
    RunConcat(s0, counted + [Bump(0), Lose], [Reply(0), Admit(1)]);
    StaleReply(Run(s0, counted + [Bump(0), Lose]), doc.usageCount + 1000, Run(s0, counted).generation, n);
  }

  /** A hash is lost while the thousandth reply is on its way. The reply sends its update, a stream initialises a new
      hash before that lands, and Mongo ends up ahead of Redis. */
  lemma LossOvertaken(doc: Doc, n: nat)
    requires Validate(Some(doc)).Ok? && n + 1 == 1000
    ensures var s := Run(Fresh(doc, 1), [Admit(0), CheckExists(0), WriteHash(0)] + Counted(n) + [Bump(0), Lose]
                                        + [Reply(0), Admit(1)] + [CheckExists(1), WriteHash(1)] + [Land(0)]);
            && Settled(s) && s.hash == Some(UsageHash(doc.usageCount, true))
            && s.doc.usageCount == doc.usageCount + 1000
  {
    var s0 := Fresh(doc, 1);
    var admitted := [Admit(0), CheckExists(0), WriteHash(0)] + Counted(n) + [Bump(0), Lose] + [Reply(0), Admit(1)];
    LossUnderReply(doc, n);
    RunConcat(s0, admitted, [CheckExists(1), WriteHash(1)]);
    FoundNone(Run(s0, admitted));
    RunConcat(s0, admitted + [CheckExists(1), WriteHash(1)], [Land(0)]);
    RunOne(Run(s0, admitted + [CheckExists(1), WriteHash(1)]), Land(0));
  }
}
