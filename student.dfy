/** The consuming side (src/student.rs): a student takes ideas off the idea
    channel, buffers packages until the held idea can be built, builds it by
    draining packages from the front of its buffer, and stops when it sees
    the idea channel empty and takes a termination token. */
module Students {
  import opened Checksums
  import opened Channels
  import opened Ideas
  import opened Packages

  /** How a run of one student ends. `Finished` is the source's `return`.
      The other two are the points where the source polls an empty channel
      again and again: in a run where no other thread sends, it would poll
      forever. */
  datatype RunOutcome =
    | Finished         // idea channel empty and a termination token taken
    | AwaitingIdea     // idea channel empty and no token available
    | AwaitingPackage  // holding an idea, too few packages, package channel empty

  /** Packages received = packages used + packages still buffered, carried
      across one more round of receiving and draining. */
  lemma BufferConservation(used: seq<Package>, buffer: seq<Package>, initial: seq<Package>, received: seq<Package>,
                           drained: seq<Package>, buffer': seq<Package>, newlyReceived: seq<Package>)
    requires used + buffer == initial + received
    requires drained + buffer' == buffer + newlyReceived
    ensures (used + drained) + buffer' == initial + (received + newlyReceived)
  {
    calc {
      (used + drained) + buffer';
      used + (drained + buffer');
      used + (buffer + newlyReceived);
      (used + buffer) + newlyReceived;
      (initial + received) + newlyReceived;
    }
  }

  /** One more built idea and its drained packages, added to the running
      checksums, give the checksums of the longer histories. */
  lemma {:induction false} ChecksumsStep(c0: Checksum, built: seq<Idea>, event: Idea,
                                         p0: Checksum, used: seq<Package>, drained: seq<Package>)
    ensures (c0 + IdeasChecksum(built)) + WithSha256(event.name) == c0 + IdeasChecksum(built + [event])
    ensures (p0 + PackagesChecksum(used)) + PackagesChecksum(drained) == p0 + PackagesChecksum(used + drained)
  {
    IdeasChecksumSnoc(built, event);
    CombineAssociates(c0, IdeasChecksum(built), WithSha256(event.name));
    PackagesChecksumConcat(used, drained);
    CombineAssociates(p0, PackagesChecksum(used), PackagesChecksum(drained));
  }

  /** The loop of `build_idea` over the drained packages: the batch
      checksum of exactly their names. */
  method UsedPackagesChecksum(pkgsUsed: seq<Package>) returns (batchPkgChecksum: Checksum)
    ensures batchPkgChecksum == PackagesChecksum(pkgsUsed)
  {
    batchPkgChecksum := Default();
    for k := 0 to |pkgsUsed|
      invariant batchPkgChecksum == PackagesChecksum(pkgsUsed[..k])
    {
      batchPkgChecksum := Combine(batchPkgChecksum, WithSha256(pkgsUsed[k].name));
      assert pkgsUsed[..k + 1] == pkgsUsed[..k] + [pkgsUsed[k]];
      PackagesChecksumSnoc(pkgsUsed[..k], pkgsUsed[k]);
    }
    assert pkgsUsed[..|pkgsUsed|] == pkgsUsed;
  }

  class Student {
    const id: nat
    var idea: Option<Idea>
    var pkgs: seq<Package>
    const ideaRecv: Channel<Idea>
    const pkgRecv: Channel<Package>
    const isOutOfIdeasRecv: Channel<bool>

    constructor (id: nat, ideaRecv: Channel<Idea>, pkgRecv: Channel<Package>, isOutOfIdeasRecv: Channel<bool>)
      ensures this.id == id && idea == None && pkgs == []
      ensures this.ideaRecv == ideaRecv && this.pkgRecv == pkgRecv && this.isOutOfIdeasRecv == isOutOfIdeasRecv
    {
      this.id := id;
      this.ideaRecv := ideaRecv;
      this.pkgRecv := pkgRecv;
      this.isOutOfIdeasRecv := isOutOfIdeasRecv;
      idea := None;
      pkgs := [];
    }

    /** Builds the held idea, if any: its name goes into the idea checksum,
        exactly `numPkgRequired` packages leave the front of the buffer (the
        rest keep their order) and their names go into the package checksum,
        and the student holds no idea afterwards. Without an idea nothing
        changes. */
    method BuildIdea(ideaChecksum: SharedChecksum, pkgChecksum: SharedChecksum)
      requires ideaChecksum != pkgChecksum
      requires idea.Some? ==> idea.value.numPkgRequired <= |pkgs|
      modifies this, ideaChecksum, pkgChecksum
      ensures idea == None
      ensures old(idea) == None ==>
                pkgs == old(pkgs) && ideaChecksum.value == old(ideaChecksum.value)
                && pkgChecksum.value == old(pkgChecksum.value)
      ensures old(idea).Some? ==>
                var required := old(idea).value.numPkgRequired;
                && pkgs == old(pkgs)[required..]
                && ideaChecksum.value == old(ideaChecksum.value) + WithSha256(old(idea).value.name)
                && pkgChecksum.value == old(pkgChecksum.value) + PackagesChecksum(old(pkgs)[..required])
      ensures ideaChecksum.merges == old(ideaChecksum.merges) + (if old(idea).Some? then 1 else 0)
      ensures pkgChecksum.merges == old(pkgChecksum.merges) + (if old(idea).Some? then 1 else 0)
    {
      if idea.Some? {
        var held := idea.value;
        var pkgsRequired := held.numPkgRequired;

        var batchIdeaChecksum := Default();
        batchIdeaChecksum := Combine(batchIdeaChecksum, WithSha256(held.name));
        ideaChecksum.Update(batchIdeaChecksum);

        var pkgsUsed := pkgs[..pkgsRequired];
        pkgs := pkgs[pkgsRequired..];
        var batchPkgChecksum := UsedPackagesChecksum(pkgsUsed);
        pkgChecksum.Update(batchPkgChecksum);

        idea := None;
      }
    }

    /** The inner polling loop of `run`: with an idea held, take packages
        off the package channel onto the back of the buffer until the idea
        can be built, then build it. `builtIt` is false where the source
        would poll an empty package channel forever. `received` are the
        packages taken off the channel, `drained` those the build used. */
    method CollectAndBuild(ideaChecksum: SharedChecksum, pkgChecksum: SharedChecksum)
      returns (builtIt: bool, ghost received: seq<Package>, ghost drained: seq<Package>)
      requires ideaChecksum != pkgChecksum
      requires idea.Some?
      modifies this, pkgRecv, ideaChecksum, pkgChecksum
      ensures old(pkgRecv.items) == received + pkgRecv.items
      ensures drained + pkgs == old(pkgs) + received
      ensures builtIt ==>
                && idea == None && |drained| == old(idea).value.numPkgRequired
                && ideaChecksum.value == old(ideaChecksum.value) + WithSha256(old(idea).value.name)
                && pkgChecksum.value == old(pkgChecksum.value) + PackagesChecksum(drained)
      ensures !builtIt ==>
                && idea == old(idea) && drained == [] && pkgRecv.items == []
                && |pkgs| < idea.value.numPkgRequired
                && ideaChecksum.value == old(ideaChecksum.value) && pkgChecksum.value == old(pkgChecksum.value)
      ensures old(idea).value.numPkgRequired <= |old(pkgs)| + |old(pkgRecv.items)| ==> builtIt
    {
      received, drained := [], [];
      var pkgsRequired := idea.value.numPkgRequired;
      while true
        invariant old(pkgRecv.items) == received + pkgRecv.items
        invariant pkgs == old(pkgs) + received
        invariant idea == old(idea)
        invariant ideaChecksum.value == old(ideaChecksum.value) && pkgChecksum.value == old(pkgChecksum.value)
        decreases |pkgRecv.items|
      {
        if pkgsRequired <= |pkgs| {
          drained := pkgs[..pkgsRequired];
          assert drained + pkgs[pkgsRequired..] == pkgs;
          BuildIdea(ideaChecksum, pkgChecksum);
          builtIt := true;
          return;
        }
        var newPkg := pkgRecv.TryRecv();
        if newPkg.Some? {
          pkgs := pkgs + [newPkg.value];
          received := received + [newPkg.value];
        } else {
          builtIt := false;
          return;
        }
      }
    }

    /** The termination test of `run`: the idea channel is empty and a
        termination token could be taken (the token is taken only when the
        idea channel is empty). */
    method OutOfIdeas() returns (outOfIdeas: bool)
      modifies isOutOfIdeasRecv
      ensures outOfIdeas <==> ideaRecv.items == [] && old(isOutOfIdeasRecv.items) != []
      ensures isOutOfIdeasRecv.items
              == if outOfIdeas then old(isOutOfIdeasRecv.items)[1..] else old(isOutOfIdeasRecv.items)
    {
      outOfIdeas := false;
      if ideaRecv.IsEmpty() {
        var token := isOutOfIdeasRecv.TryRecv();
        outOfIdeas := token.Some?;
      }
    }

    /** One round of the outer loop of `run`: take the next idea, collect
        packages for it and build it. `outcome` is `None` when the idea was
        built and the loop goes on; otherwise it says how the run ends. */
    method Round(ideaChecksum: SharedChecksum, pkgChecksum: SharedChecksum)
      returns (outcome: Option<RunOutcome>, ghost event: Idea, ghost received: seq<Package>, ghost drained: seq<Package>)
      requires ideaChecksum != pkgChecksum
      requires idea == None
      modifies this, ideaRecv, pkgRecv, isOutOfIdeasRecv, ideaChecksum, pkgChecksum
      ensures old(pkgRecv.items) == received + pkgRecv.items
      ensures drained + pkgs == old(pkgs) + received
      ensures outcome == None ==>
                && old(ideaRecv.items) == [event] + ideaRecv.items && idea == None
                && |drained| == event.numPkgRequired
                && ideaChecksum.value == old(ideaChecksum.value) + WithSha256(event.name)
                && pkgChecksum.value == old(pkgChecksum.value) + PackagesChecksum(drained)
                && isOutOfIdeasRecv.items == old(isOutOfIdeasRecv.items)
      ensures outcome == Some(AwaitingPackage) ==>
                && old(ideaRecv.items) == [event] + ideaRecv.items && idea == Some(event)
                && drained == [] && pkgRecv.items == [] && |pkgs| < event.numPkgRequired
                && ideaChecksum.value == old(ideaChecksum.value) && pkgChecksum.value == old(pkgChecksum.value)
                && isOutOfIdeasRecv.items == old(isOutOfIdeasRecv.items)
      ensures outcome.Some? && outcome != Some(AwaitingPackage) ==>
                && old(ideaRecv.items) == [] && ideaRecv.items == [] && idea == None
                && received == [] && drained == [] && pkgs == old(pkgs) && pkgRecv.items == old(pkgRecv.items)
                && ideaChecksum.value == old(ideaChecksum.value) && pkgChecksum.value == old(pkgChecksum.value)
      ensures outcome == Some(Finished) ==>
                old(isOutOfIdeasRecv.items) != [] && isOutOfIdeasRecv.items == old(isOutOfIdeasRecv.items)[1..]
      ensures outcome == Some(AwaitingIdea) ==>
                old(isOutOfIdeasRecv.items) == [] && isOutOfIdeasRecv.items == []
      ensures old(ideaRecv.items) != [] && old(ideaRecv.items)[0].numPkgRequired <= |old(pkgs)| + |old(pkgRecv.items)|
              ==> outcome != Some(AwaitingPackage)
    {
      received, drained, event := [], [], Idea([], 0);
      var ideaRecvEvent := ideaRecv.TryRecv();
      if ideaRecvEvent.None? {
        var outOfIdeas := OutOfIdeas();
        outcome := Some(if outOfIdeas then Finished else AwaitingIdea);
        return;
      }
      idea := ideaRecvEvent;
      event := ideaRecvEvent.value;
      var builtIt;
      builtIt, received, drained := CollectAndBuild(ideaChecksum, pkgChecksum);
      outcome := if builtIt then None else Some(AwaitingPackage);
    }

    /** One student's run, with the channels holding what the producers
        sent. The ghost results name what the run did: `built` are the ideas
        it built, in order; `received` the packages it took off the package
        channel; `used` the packages its builds drained. */
    method Run(ideaChecksum: SharedChecksum, pkgChecksum: SharedChecksum)
      returns (outcome: RunOutcome, ghost built: seq<Idea>, ghost received: seq<Package>, ghost used: seq<Package>)
      requires ideaChecksum != pkgChecksum
      requires idea == None
      modifies this, ideaRecv, pkgRecv, isOutOfIdeasRecv, ideaChecksum, pkgChecksum
      // packages: what arrives goes to the back of the buffer, builds drain the front
      ensures old(pkgRecv.items) == received + pkgRecv.items
      ensures used + pkgs == old(pkgs) + received
      ensures |used| == TotalRequired(built)
      // checksums: exactly the built ideas and the drained packages
      ensures ideaChecksum.value == old(ideaChecksum.value) + IdeasChecksum(built)
      ensures pkgChecksum.value == old(pkgChecksum.value) + PackagesChecksum(used)
      // ideas are taken in channel order; only a run stuck on packages still holds one
      ensures outcome != AwaitingPackage ==>
                idea == None && ideaRecv.items == [] && old(ideaRecv.items) == built
      ensures outcome == AwaitingPackage ==>
                && idea.Some? && old(ideaRecv.items) == built + [idea.value] + ideaRecv.items
                && pkgRecv.items == [] && |pkgs| < idea.value.numPkgRequired
                && isOutOfIdeasRecv.items == old(isOutOfIdeasRecv.items)
      // termination takes exactly one token, and happens whenever one is there
      ensures outcome == Finished ==>
                old(isOutOfIdeasRecv.items) != [] && isOutOfIdeasRecv.items == old(isOutOfIdeasRecv.items)[1..]
      ensures outcome == AwaitingIdea ==>
                old(isOutOfIdeasRecv.items) == [] && isOutOfIdeasRecv.items == []
      // with enough packages in reach, the run never waits for one
      ensures TotalRequired(old(ideaRecv.items)) <= |old(pkgs)| + |old(pkgRecv.items)| ==> outcome != AwaitingPackage
    {
      built, received, used := [], [], [];
      ghost var ideaSum0, pkgSum0 := ideaChecksum.value, pkgChecksum.value;
      ghost var enough := TotalRequired(old(ideaRecv.items)) <= |old(pkgs)| + |old(pkgRecv.items)|;

      while true
        invariant old(ideaRecv.items) == built + ideaRecv.items
        invariant old(pkgRecv.items) == received + pkgRecv.items
        invariant used + pkgs == old(pkgs) + received
        invariant |used| == TotalRequired(built)
        invariant ideaChecksum.value == ideaSum0 + IdeasChecksum(built)
        invariant pkgChecksum.value == pkgSum0 + PackagesChecksum(used)
        invariant idea == None
        invariant isOutOfIdeasRecv.items == old(isOutOfIdeasRecv.items)
        invariant enough ==> TotalRequired(ideaRecv.items) <= |pkgs| + |pkgRecv.items|
        decreases |ideaRecv.items|
      {
        ghost var pkgsBefore := pkgs;
        var step, event, newlyReceived, drained := Round(ideaChecksum, pkgChecksum);
        if step.Some? {
          outcome := step.value;
          if outcome == AwaitingPackage {
            BufferConservation(used, pkgsBefore, old(pkgs), received, drained, pkgs, newlyReceived);
            AppendAssociates(received, newlyReceived, pkgRecv.items);
            AppendAssociates(built, [event], ideaRecv.items);
            assert used + drained == used;
            received := received + newlyReceived;
          }
          return;
        }
        TotalRequiredConcat([event], ideaRecv.items);
        AppendAssociates(received, newlyReceived, pkgRecv.items);
        AppendAssociates(built, [event], ideaRecv.items);
        BufferConservation(used, pkgsBefore, old(pkgs), received, drained, pkgs, newlyReceived);
        TotalRequiredConcat(built, [event]);
        ChecksumsStep(ideaSum0, built, event, pkgSum0, used, drained);
        built, received, used := built + [event], received + newlyReceived, used + drained;
      }
    }
  }
}
