/** Idea generation (src/idea.rs): naming ideas from the product x customer
    cross product, apportioning a worker's package budget over its ideas, and
    the generator's run. */
module Ideas {
  import opened Arith
  import opened Partition
  import opened Checksums
  import opened Channels

  datatype Idea = Idea(name: string, numPkgRequired: nat)

  /** `get_next_idea_name`: the name of the idea at global index `idx`,
      taken cyclically from the cross product. */
  function NextIdeaName(ideas: seq<(string, string)>, idx: nat): string
    requires |ideas| > 0
  {
    var pair := ideas[idx % |ideas|];
    pair.0 + " for " + pair.1
  }

  /** Idea names repeat with period `|ideas|`: once the cross product is
      exhausted, names are reused from its start. */
  lemma NextIdeaNameCycles(ideas: seq<(string, string)>, idx: nat)
    requires |ideas| > 0
    ensures NextIdeaName(ideas, idx + |ideas|) == NextIdeaName(ideas, idx)
  {
    ModAddPeriod(idx, |ideas|);
  }

  /** The idea with local index `i` of a generator that starts at global
      index `startIdx` and spreads `numPkgs` packages over `numIdeas` ideas. */
  function IdeaAt(ideas: seq<(string, string)>, startIdx: nat, numIdeas: nat, numPkgs: nat, i: nat): Idea
    requires |ideas| > 0 && numIdeas >= 1
  {
    Idea(NextIdeaName(ideas, startIdx + i), PerThreadAmount(i, numPkgs, numIdeas))
  }

  /** The first `k` ideas such a generator emits, in order. */
  function IdeaBatch(ideas: seq<(string, string)>, startIdx: nat, numIdeas: nat, numPkgs: nat, k: nat): (batch: seq<Idea>)
    requires |ideas| > 0 && numIdeas >= 1
    ensures |batch| == k
  {
    if k == 0 then []
    else IdeaBatch(ideas, startIdx, numIdeas, numPkgs, k - 1) + [IdeaAt(ideas, startIdx, numIdeas, numPkgs, k - 1)]
  }

  /** The names of ideas, in order. */
  function IdeaNames(batch: seq<Idea>): seq<string>
  {
    seq(|batch|, i requires 0 <= i < |batch| => batch[i].name)
  }

  /** The checksum of a batch of ideas: the digests of their names combined
      in order, as the generator's batch loop and the students' builds do. */
  function IdeasChecksum(batch: seq<Idea>): Checksum
  {
    if batch == [] then Default()
    else Combine(IdeasChecksum(batch[..|batch| - 1]), WithSha256(batch[|batch| - 1].name))
  }

  /** The names of the ideas at global indices `startIdx .. startIdx+count-1`. */
  function GlobalIdeaNames(ideas: seq<(string, string)>, startIdx: nat, count: nat): seq<string>
    requires |ideas| > 0 || count == 0
  {
    seq(count, i requires 0 <= i < count => NextIdeaName(ideas, startIdx + i))
  }

  /** The package requirements of ideas, added up from the front. */
  function TotalRequired(batch: seq<Idea>): nat
  {
    if batch == [] then 0 else batch[0].numPkgRequired + TotalRequired(batch[1..])
  }

  /** `count` termination tokens. */
  function Tokens(count: nat): seq<bool>
  {
    seq(count, _ => true)
  }

  lemma TokensConcat(m: nat, n: nat)
    ensures Tokens(m) + Tokens(n) == Tokens(m + n)
  {
  }

  lemma {:induction false} TotalRequiredConcat(a: seq<Idea>, b: seq<Idea>)
    ensures TotalRequired(a + b) == TotalRequired(a) + TotalRequired(b)
    decreases |a|
  {
    if a != [] {
      assert (a + b)[1..] == a[1..] + b;
      TotalRequiredConcat(a[1..], b);
    } else {
      assert a + b == b;
    }
  }

  /** Feeding one more idea into the checksum. */
  lemma IdeasChecksumSnoc(batch: seq<Idea>, idea: Idea)
    ensures IdeasChecksum(batch + [idea]) == Combine(IdeasChecksum(batch), WithSha256(idea.name))
  {
    assert (batch + [idea])[..|batch|] == batch;
  }

  lemma {:induction false} IdeasChecksumConcat(a: seq<Idea>, b: seq<Idea>)
    ensures IdeasChecksum(a + b) == Combine(IdeasChecksum(a), IdeasChecksum(b))
    decreases |b|
  {
    if b == [] {
      assert a + b == a;
    } else {
      assert (a + b)[..|a + b| - 1] == a + b[..|b| - 1];
      IdeasChecksumConcat(a, b[..|b| - 1]);
    }
  }

  /** The checksum of a batch is the multiset of its names: it does not
      depend on the order in which the names were fed in. */
  lemma {:induction false} IdeasChecksumIsNames(batch: seq<Idea>)
    ensures IdeasChecksum(batch) == multiset(IdeaNames(batch))
    decreases |batch|
  {
    if batch != [] {
      var prefix, last := batch[..|batch| - 1], batch[|batch| - 1];
      IdeasChecksumIsNames(prefix);
      assert batch == prefix + [last];
      IdeaNamesConcat(prefix, [last]);
      assert IdeaNames([last]) == [last.name];
    }
  }

  lemma IdeaNamesConcat(a: seq<Idea>, b: seq<Idea>)
    ensures IdeaNames(a + b) == IdeaNames(a) + IdeaNames(b)
  {
  }

  /** The batch holds exactly `k` ideas, the `i`-th being the idea of local
      index `i`. */
  lemma {:induction false} IdeaBatchAt(ideas: seq<(string, string)>, startIdx: nat, numIdeas: nat, numPkgs: nat, k: nat, i: nat)
    requires |ideas| > 0 && numIdeas >= 1 && i < k
    ensures IdeaBatch(ideas, startIdx, numIdeas, numPkgs, k)[i] == IdeaAt(ideas, startIdx, numIdeas, numPkgs, i)
  {
    if i < k - 1 {
      IdeaBatchAt(ideas, startIdx, numIdeas, numPkgs, k - 1, i);
    } else if k > 1 {
      IdeaBatchAt(ideas, startIdx, numIdeas, numPkgs, k - 1, 0);
    }
  }

  /** Within one generator's batch, the requirements of the first `k` ideas
      add up to the offset the partition gives worker `k`. */
  lemma {:induction false} IdeaBatchPrefixRequired(ideas: seq<(string, string)>, startIdx: nat, numIdeas: nat, numPkgs: nat, k: nat)
    requires |ideas| > 0 && numIdeas >= 1 && k <= numIdeas
    ensures TotalRequired(IdeaBatch(ideas, startIdx, numIdeas, numPkgs, k)) == Offset(k, numPkgs, numIdeas)
  {
    if k > 0 {
      var prefix := IdeaBatch(ideas, startIdx, numIdeas, numPkgs, k - 1);
      TotalRequiredConcat(prefix, [IdeaAt(ideas, startIdx, numIdeas, numPkgs, k - 1)]);
      IdeaBatchPrefixRequired(ideas, startIdx, numIdeas, numPkgs, k - 1);
    }
  }

  /** Over one generator's batch, the requirements add up to exactly the
      generator's package budget. */
  lemma IdeaBatchRequiresAllPackages(ideas: seq<(string, string)>, startIdx: nat, numIdeas: nat, numPkgs: nat)
    requires |ideas| > 0 && numIdeas >= 1
    ensures TotalRequired(IdeaBatch(ideas, startIdx, numIdeas, numPkgs, numIdeas)) == numPkgs
  {
    IdeaBatchPrefixRequired(ideas, startIdx, numIdeas, numPkgs, numIdeas);
    OffsetCoversTotal(numPkgs, numIdeas);
  }

  /** Requirements never increase along the batch and differ by at most one. */
  lemma IdeaBatchBalanced(ideas: seq<(string, string)>, startIdx: nat, numIdeas: nat, numPkgs: nat, i: nat, j: nat)
    requires |ideas| > 0 && numIdeas >= 1 && i <= j < numIdeas
    ensures var batch := IdeaBatch(ideas, startIdx, numIdeas, numPkgs, numIdeas);
            batch[j].numPkgRequired <= batch[i].numPkgRequired <= batch[j].numPkgRequired + 1
  {
    IdeaBatchAt(ideas, startIdx, numIdeas, numPkgs, numIdeas, i);
    IdeaBatchAt(ideas, startIdx, numIdeas, numPkgs, numIdeas, j);
    AmountsBalanced(i, j, numPkgs, numIdeas);
  }

  /** 4 ideas sharing 10 packages require 3, 3, 2 and 2 packages in turn. */
  lemma FourIdeasTenPackages(ideas: seq<(string, string)>, startIdx: nat)
    requires |ideas| > 0
    ensures var batch := IdeaBatch(ideas, startIdx, 4, 10, 4);
            [batch[0].numPkgRequired, batch[1].numPkgRequired,
             batch[2].numPkgRequired, batch[3].numPkgRequired] == [3, 3, 2, 2]
  {
    for i := 0 to 4
      invariant forall j :: 0 <= j < i ==> IdeaBatch(ideas, startIdx, 4, 10, 4)[j] == IdeaAt(ideas, startIdx, 4, 10, j)
    {
      IdeaBatchAt(ideas, startIdx, 4, 10, 4, i);
    }
  }

  /** A batch is named for its consecutive global indices. */
  lemma {:induction false} IdeaBatchNames(ideas: seq<(string, string)>, startIdx: nat, numIdeas: nat, numPkgs: nat, k: nat)
    requires |ideas| > 0 && numIdeas >= 1
    ensures IdeaNames(IdeaBatch(ideas, startIdx, numIdeas, numPkgs, k)) == GlobalIdeaNames(ideas, startIdx, k)
  {
    if k > 0 {
      var prefix := IdeaBatch(ideas, startIdx, numIdeas, numPkgs, k - 1);
      IdeaBatchNames(ideas, startIdx, numIdeas, numPkgs, k - 1);
      IdeaNamesConcat(prefix, [IdeaAt(ideas, startIdx, numIdeas, numPkgs, k - 1)]);
      GlobalIdeaNamesConcat(ideas, startIdx, k - 1, 1);
    }
  }

  /** Consecutive index ranges name consecutive ideas: two generators with
      adjacent offsets together name one contiguous range. */
  lemma GlobalIdeaNamesConcat(ideas: seq<(string, string)>, startIdx: nat, m: nat, n: nat)
    requires |ideas| > 0 || m + n == 0
    ensures GlobalIdeaNames(ideas, startIdx, m) + GlobalIdeaNames(ideas, startIdx + m, n)
            == GlobalIdeaNames(ideas, startIdx, m + n)
  {
  }

  /** One more turn of the generator's batch loop, sending `idea` after
      the ideas already in the channel. */
  lemma IdeaBatchStep(ideas: seq<(string, string)>, startIdx: nat, numIdeas: nat, numPkgs: nat, i: nat,
                      idea: Idea, before: seq<Idea>)
    requires |ideas| > 0 && numIdeas >= 1
    requires idea.name == NextIdeaName(ideas, startIdx + i)
    requires idea.numPkgRequired == numPkgs / numIdeas + (if i < numPkgs % numIdeas then 1 else 0)
    ensures (before + IdeaBatch(ideas, startIdx, numIdeas, numPkgs, i)) + [idea]
            == before + IdeaBatch(ideas, startIdx, numIdeas, numPkgs, i + 1)
    ensures Combine(IdeasChecksum(IdeaBatch(ideas, startIdx, numIdeas, numPkgs, i)), WithSha256(idea.name))
            == IdeasChecksum(IdeaBatch(ideas, startIdx, numIdeas, numPkgs, i + 1))
  {
    var sent := IdeaBatch(ideas, startIdx, numIdeas, numPkgs, i);
    assert IdeaBatch(ideas, startIdx, numIdeas, numPkgs, i + 1) == sent + [idea];
    IdeasChecksumSnoc(sent, idea);
    AppendAssociates(before, sent, [idea]);
  }

  /** `IdeaGenerator`: emits `numIdeas` ideas from global index
      `ideaStartIdx`, then `numStudents` termination tokens. */
  class IdeaGenerator {
    const ideaStartIdx: nat
    const numIdeas: nat
    const numStudents: nat
    const numPkgs: nat
    const ideaSend: Channel<Idea>
    const isOutOfIdeasSend: Channel<bool>
    const ideas: seq<(string, string)>

    constructor (ideaStartIdx: nat, numIdeas: nat, numStudents: nat, numPkgs: nat,
                 ideaSend: Channel<Idea>, isOutOfIdeasSend: Channel<bool>, ideas: seq<(string, string)>)
      ensures this.ideaStartIdx == ideaStartIdx && this.numIdeas == numIdeas
      ensures this.numStudents == numStudents && this.numPkgs == numPkgs
      ensures this.ideaSend == ideaSend && this.isOutOfIdeasSend == isOutOfIdeasSend
      ensures this.ideas == ideas
    {
      this.ideaStartIdx := ideaStartIdx;
      this.numIdeas := numIdeas;
      this.numStudents := numStudents;
      this.numPkgs := numPkgs;
      this.ideaSend := ideaSend;
      this.isOutOfIdeasSend := isOutOfIdeasSend;
      this.ideas := ideas;
    }

    /** The batch loop of `run`: sends the ideas in index order and returns
        the checksum of exactly the sent names. */
    method SendIdeas() returns (batchChecksum: Checksum)
      requires numIdeas >= 1 && |ideas| > 0
      modifies ideaSend
      ensures ideaSend.items == old(ideaSend.items) + IdeaBatch(ideas, ideaStartIdx, numIdeas, numPkgs, numIdeas)
      ensures batchChecksum == IdeasChecksum(IdeaBatch(ideas, ideaStartIdx, numIdeas, numPkgs, numIdeas))
    {
      // the generator's parameters, read once
      var firstIdx, ideaCount, pkgCount, pairs := ideaStartIdx, numIdeas, numPkgs, ideas;
      var pkgPerIdea := pkgCount / ideaCount;
      var extraPkgs := pkgCount % ideaCount;

      batchChecksum := Default();
      for i := 0 to ideaCount
        invariant ideaSend.items == old(ideaSend.items) + IdeaBatch(pairs, firstIdx, ideaCount, pkgCount, i)
        invariant batchChecksum == IdeasChecksum(IdeaBatch(pairs, firstIdx, ideaCount, pkgCount, i))
      {
        var name := NextIdeaName(pairs, firstIdx + i);
        var extra := if i < extraPkgs then 1 else 0;
        var numPkgRequired := pkgPerIdea + extra;
        var idea := Idea(name, numPkgRequired);
        IdeaBatchStep(pairs, firstIdx, ideaCount, pkgCount, i, idea, old(ideaSend.items));

        batchChecksum := Combine(batchChecksum, WithSha256(idea.name));
        ideaSend.Send(idea);
      }
    }

    /** `run`: sends the batch in index order, merges the batch checksum of
        exactly the sent names once, then sends the tokens. */
    method Run(ideaChecksum: SharedChecksum)
      requires numIdeas >= 1 && |ideas| > 0
      modifies ideaSend, isOutOfIdeasSend, ideaChecksum
      ensures ideaSend.items == old(ideaSend.items) + IdeaBatch(ideas, ideaStartIdx, numIdeas, numPkgs, numIdeas)
      ensures ideaChecksum.value
              == old(ideaChecksum.value) + IdeasChecksum(IdeaBatch(ideas, ideaStartIdx, numIdeas, numPkgs, numIdeas))
      ensures isOutOfIdeasSend.items == old(isOutOfIdeasSend.items) + Tokens(numStudents)
      ensures ideaChecksum.merges == old(ideaChecksum.merges) + 1
    {
      var batchChecksum := SendIdeas();
      ideaChecksum.Update(batchChecksum);

      for i := 0 to numStudents
        invariant isOutOfIdeasSend.items == old(isOutOfIdeasSend.items) + Tokens(i)
        invariant ideaSend.items == old(ideaSend.items) + IdeaBatch(ideas, ideaStartIdx, numIdeas, numPkgs, numIdeas)
        invariant ideaChecksum.value == old(ideaChecksum.value) + batchChecksum
        invariant ideaChecksum.merges == old(ideaChecksum.merges) + 1
      {
        isOutOfIdeasSend.Send(true);
        assert Tokens(i + 1) == Tokens(i) + [true];
        AppendAssociates(old(isOutOfIdeasSend.items), Tokens(i), [true]);
      }
    }
  }
}
