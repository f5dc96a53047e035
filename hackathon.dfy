/** The orchestration in `hackathon` (src/main.rs): the idea cross product,
    the spawning loops that hand every producer a contiguous range of global
    indices, the students, and the four checksums compared at the end.

    One schedule is modelled: every producer runs to completion as soon as
    it is created, then the students run one after another. */
module Hackathon {
  import opened Arith
  import opened Partition
  import opened Checksums
  import opened Channels
  import opened Ideas
  import opened Packages
  import opened Students

  /** The command-line counts of one run. */
  datatype Args = Args(numIdeas: nat, numIdeaGen: nat, numPkgs: nat, numPkgGen: nat, numStudents: nat)

  /** Every product paired with every customer, product-major: the
      customers of the first product, then those of the second, and so on. */
  function CrossProduct(products: seq<string>, customers: seq<string>): (pairs: seq<(string, string)>)
    ensures |pairs| == |products| * |customers|
    ensures |products| > 0 && |customers| > 0 ==> |pairs| > 0
  {
    if products == [] then []
    else
      var rest := CrossProduct(products[1..], customers);
      assert |products| * |customers| == |customers| + (|products| - 1) * |customers|;
      seq(|customers|, c requires 0 <= c < |customers| => (products[0], customers[c])) + rest
  }

  /** Product `p` and customer `c` are paired at index `p * |customers| + c`. */
  lemma {:induction false} CrossProductAt(products: seq<string>, customers: seq<string>, p: nat, c: nat)
    requires p < |products| && c < |customers|
    ensures p * |customers| + c < |CrossProduct(products, customers)|
            && CrossProduct(products, customers)[p * |customers| + c] == (products[p], customers[c])
  {
    if p > 0 {
      CrossProductAt(products[1..], customers, p - 1, c);
      assert p * |customers| == |customers| + (p - 1) * |customers|;
      assert products[1..][p - 1] == products[p];
    }
  }

  /** Conversely, entry `k` pairs product `k / |customers|` with customer
      `k % |customers|`. */
  lemma CrossProductIndex(products: seq<string>, customers: seq<string>, k: nat)
    requires k < |CrossProduct(products, customers)|
    ensures |customers| > 0 && k / |customers| < |products|
            && CrossProduct(products, customers)[k] == (products[k / |customers|], customers[k % |customers|])
  {
    var n := |customers|;
    if n == 0 {
      assert false;
    }
    DivBelow(k, n, |products|);
    var p, c := k / n, k % n;
    CrossProductAt(products, customers, p, c);
  }

  /** The idea at global index `idx` is named for the pair at position
      `idx` modulo the size of the cross product. */
  lemma IdeaNameFromCrossProduct(products: seq<string>, customers: seq<string>, idx: nat)
    requires |products| > 0 && |customers| > 0
    ensures var pairs := CrossProduct(products, customers);
            var k := idx % |pairs|;
            k / |customers| < |products|
            && NextIdeaName(pairs, idx) == products[k / |customers|] + " for " + customers[k % |customers|]
  {
    var pairs := CrossProduct(products, customers);
    var k := idx % |pairs|;
    CrossProductIndex(products, customers, k);
  }

  /** A downloader's range `[s, s + n)` sent after the range `[0, s)`:
      channel and checksum then hold the range `[0, s + n)`. */
  lemma DownloaderStep(packageLines: seq<string>, s: nat, n: nat, before: seq<Package>, c0: Checksum)
    requires |packageLines| > 0 || s + n == 0
    ensures (before + PackageBatch(packageLines, 0, s)) + PackageBatch(packageLines, s, n)
            == before + PackageBatch(packageLines, 0, s + n)
    ensures (c0 + PackagesChecksum(PackageBatch(packageLines, 0, s))) + PackagesChecksum(PackageBatch(packageLines, s, n))
            == c0 + PackagesChecksum(PackageBatch(packageLines, 0, s + n))
  {
    var front, back := PackageBatch(packageLines, 0, s), PackageBatch(packageLines, s, n);
    PackageBatchConcat(packageLines, 0, s, n);
    AppendAssociates(before, front, back);
    PackagesChecksumConcat(front, back);
    CombineAssociates(c0, PackagesChecksum(front), PackagesChecksum(back));
  }

  /** The package-downloader loop of `hackathon`: downloader `i` gets
      `PerThreadAmount(i)` packages starting where downloader `i - 1`
      stopped, so together they send the packages of global indices
      `0 .. numPkgs - 1`, in order, and the final `start_idx` is `numPkgs`. */
  method SpawnDownloaders(numPkgs: nat, numPkgGen: nat, packageLines: seq<string>,
                          pkgSend: Channel<Package>, pkgChecksum: SharedChecksum)
    requires numPkgGen >= 1 || numPkgs == 0
    requires numPkgs > 0 ==> |packageLines| > 0
    modifies pkgSend, pkgChecksum
    ensures pkgSend.items == old(pkgSend.items) + PackageBatch(packageLines, 0, numPkgs)
    ensures pkgChecksum.value == old(pkgChecksum.value) + PackagesChecksum(PackageBatch(packageLines, 0, numPkgs))
  {
    var startIdx := 0;
    for i := 0 to numPkgGen
      invariant numPkgGen >= 1 ==> startIdx == Offset(i, numPkgs, numPkgGen)
      invariant i == 0 ==> startIdx == 0
      invariant startIdx <= numPkgs
      invariant pkgSend.items == old(pkgSend.items) + PackageBatch(packageLines, 0, startIdx)
      invariant pkgChecksum.value == old(pkgChecksum.value) + PackagesChecksum(PackageBatch(packageLines, 0, startIdx))
    {
      var amount := PerThreadAmount(i, numPkgs, numPkgGen);
      RangeWithinTotal(i, numPkgs, numPkgGen);
      var downloader := new PackageDownloader(startIdx, amount, pkgSend, packageLines);
      downloader.Run(pkgChecksum);
      DownloaderStep(packageLines, startIdx, amount, old(pkgSend.items), old(pkgChecksum.value));
      startIdx := startIdx + amount;
    }
    if numPkgGen >= 1 {
      OffsetCoversTotal(numPkgs, numPkgGen);
    }
    assert startIdx == numPkgs;
  }

  /** The batch generator `k` of the idea-generator loop sends: its share
      of the ideas, starting where generator `k - 1` stopped, requiring its
      share of the packages. */
  ghost function GeneratorBatch(args: Args, pairs: seq<(string, string)>, k: nat): seq<Idea>
    requires 1 <= args.numIdeaGen <= args.numIdeas && |pairs| > 0 && k < args.numIdeaGen
  {
    var gens := args.numIdeaGen;
    var n := PerThreadAmount(k, args.numIdeas, gens);
    AmountPositive(k, args.numIdeas, gens);
    IdeaBatch(pairs, Offset(k, args.numIdeas, gens), n, PerThreadAmount(k, args.numPkgs, gens), n)
  }

  /** The ideas generators `0 .. i - 1` send together, in order. */
  ghost function Generated(args: Args, pairs: seq<(string, string)>, i: nat): seq<Idea>
    requires 1 <= args.numIdeaGen <= args.numIdeas && |pairs| > 0 && i <= args.numIdeaGen
  {
    if i == 0 then [] else Generated(args, pairs, i - 1) + GeneratorBatch(args, pairs, i - 1)
  }

  /** The ideas of generators `0 .. i - 1` are named for the global indices
      `0 .. Offset(i) - 1`: no index is skipped or named twice. */
  lemma {:induction false} GeneratedNames(args: Args, pairs: seq<(string, string)>, i: nat)
    requires 1 <= args.numIdeaGen <= args.numIdeas && |pairs| > 0 && i <= args.numIdeaGen
    ensures IdeaNames(Generated(args, pairs, i)) == GlobalIdeaNames(pairs, 0, Offset(i, args.numIdeas, args.numIdeaGen))
  {
    if i > 0 {
      var gens := args.numIdeaGen;
      var s, n := Offset(i - 1, args.numIdeas, gens), PerThreadAmount(i - 1, args.numIdeas, gens);
      AmountPositive(i - 1, args.numIdeas, gens);
      GeneratedNames(args, pairs, i - 1);
      IdeaNamesConcat(Generated(args, pairs, i - 1), GeneratorBatch(args, pairs, i - 1));
      IdeaBatchNames(pairs, s, n, PerThreadAmount(i - 1, args.numPkgs, gens), n);
      GlobalIdeaNamesConcat(pairs, 0, s, n);
    }
  }

  /** The ideas of generators `0 .. i - 1` require their combined share
      `Offset(i)` of the packages. */
  lemma {:induction false} GeneratedRequired(args: Args, pairs: seq<(string, string)>, i: nat)
    requires 1 <= args.numIdeaGen <= args.numIdeas && |pairs| > 0 && i <= args.numIdeaGen
    ensures TotalRequired(Generated(args, pairs, i)) == Offset(i, args.numPkgs, args.numIdeaGen)
  {
    if i > 0 {
      var gens := args.numIdeaGen;
      var s, n := Offset(i - 1, args.numIdeas, gens), PerThreadAmount(i - 1, args.numIdeas, gens);
      AmountPositive(i - 1, args.numIdeas, gens);
      GeneratedRequired(args, pairs, i - 1);
      TotalRequiredConcat(Generated(args, pairs, i - 1), GeneratorBatch(args, pairs, i - 1));
      IdeaBatchRequiresAllPackages(pairs, s, n, PerThreadAmount(i - 1, args.numPkgs, gens));
    }
  }

  /** All the generators together send the ideas of global indices
      `0 .. numIdeas - 1`, requiring `numPkgs` packages, and
      `numStudents` tokens. */
  lemma GeneratorsCoverTotals(args: Args, pairs: seq<(string, string)>)
    requires 1 <= args.numIdeaGen <= args.numIdeas && |pairs| > 0
    ensures IdeaNames(Generated(args, pairs, args.numIdeaGen)) == GlobalIdeaNames(pairs, 0, args.numIdeas)
    ensures TotalRequired(Generated(args, pairs, args.numIdeaGen)) == args.numPkgs
    ensures Offset(args.numIdeaGen, args.numIdeas, args.numIdeaGen) == args.numIdeas
    ensures Offset(args.numIdeaGen, args.numStudents, args.numIdeaGen) == args.numStudents
  {
    GeneratedNames(args, pairs, args.numIdeaGen);
    GeneratedRequired(args, pairs, args.numIdeaGen);
    OffsetCoversTotal(args.numIdeas, args.numIdeaGen);
    OffsetCoversTotal(args.numPkgs, args.numIdeaGen);
    OffsetCoversTotal(args.numStudents, args.numIdeaGen);
  }

  /** Generator `i`'s batch sent after those of generators `0 .. i - 1`:
      channel and checksum then hold those of generators `0 .. i`. */
  lemma GeneratorStep(args: Args, pairs: seq<(string, string)>, i: nat, before: seq<Idea>, c0: Checksum)
    requires 1 <= args.numIdeaGen <= args.numIdeas && |pairs| > 0 && i < args.numIdeaGen
    ensures var sent, batch := Generated(args, pairs, i), GeneratorBatch(args, pairs, i);
            && (before + sent) + batch == before + Generated(args, pairs, i + 1)
            && (c0 + IdeasChecksum(sent)) + IdeasChecksum(batch) == c0 + IdeasChecksum(Generated(args, pairs, i + 1))
  {
    var sent, batch := Generated(args, pairs, i), GeneratorBatch(args, pairs, i);
    AppendAssociates(before, sent, batch);
    IdeasChecksumConcat(sent, batch);
    CombineAssociates(c0, IdeasChecksum(sent), IdeasChecksum(batch));
  }

  /** One turn of the idea-generator loop: generator `i` gets its shares of
      ideas, packages and students, starts at `startIdx`, and runs to
      completion, sending its batch and one token per student of its share.
      Returns its share of the ideas, by which `start_idx` grows. */
  method SpawnIdeaGenerator(args: Args, pairs: seq<(string, string)>, i: nat, startIdx: nat,
                            ideaSend: Channel<Idea>, isOutOfIdeasSend: Channel<bool>, ideaChecksum: SharedChecksum,
                            ghost ideas0: seq<Idea>, ghost tokens0: seq<bool>, ghost checksum0: Checksum)
    returns (numIdeas: nat)
    requires 1 <= args.numIdeaGen <= args.numIdeas && |pairs| > 0 && i < args.numIdeaGen
    requires startIdx == Offset(i, args.numIdeas, args.numIdeaGen)
    requires ideaSend.items == ideas0 + Generated(args, pairs, i)
    requires ideaChecksum.value == checksum0 + IdeasChecksum(Generated(args, pairs, i))
    requires isOutOfIdeasSend.items == tokens0 + Tokens(Offset(i, args.numStudents, args.numIdeaGen))
    modifies ideaSend, isOutOfIdeasSend, ideaChecksum
    ensures startIdx + numIdeas == Offset(i + 1, args.numIdeas, args.numIdeaGen)
    ensures ideaSend.items == ideas0 + Generated(args, pairs, i + 1)
    ensures ideaChecksum.value == checksum0 + IdeasChecksum(Generated(args, pairs, i + 1))
    ensures isOutOfIdeasSend.items == tokens0 + Tokens(Offset(i + 1, args.numStudents, args.numIdeaGen))
  {
    var gens := args.numIdeaGen;
    numIdeas := PerThreadAmount(i, args.numIdeas, gens);
    var numPkgs := PerThreadAmount(i, args.numPkgs, gens);
    var numStudents := PerThreadAmount(i, args.numStudents, gens);
    AmountPositive(i, args.numIdeas, gens);
    var generator := new IdeaGenerator(startIdx, numIdeas, numStudents, numPkgs, ideaSend, isOutOfIdeasSend, pairs);
    generator.Run(ideaChecksum);
    GeneratorStep(args, pairs, i, ideas0, checksum0);
    ghost var tokenCount := Offset(i, args.numStudents, gens);
    AppendAssociates(tokens0, Tokens(tokenCount), Tokens(numStudents));
    TokensConcat(tokenCount, numStudents);
  }

  /** The idea-generator loop of `hackathon`: ideas, packages and students
      are all split over the generators with `PerThreadAmount`, and each
      generator's ideas start where the previous one's stopped. Together the
      generators send the ideas of global indices `0 .. numIdeas - 1`, in
      order, requiring `numPkgs` packages in all, and one token per student. */
  method SpawnIdeaGenerators(args: Args, pairs: seq<(string, string)>, ideaSend: Channel<Idea>,
                             isOutOfIdeasSend: Channel<bool>, ideaChecksum: SharedChecksum)
    returns (ghost sent: seq<Idea>)
    requires args.numIdeaGen <= args.numIdeas
    requires args.numIdeas > 0 ==> args.numIdeaGen >= 1
    requires args.numIdeaGen >= 1 ==> |pairs| > 0
    modifies ideaSend, isOutOfIdeasSend, ideaChecksum
    ensures ideaSend.items == old(ideaSend.items) + sent
    ensures IdeaNames(sent) == GlobalIdeaNames(pairs, 0, args.numIdeas)
    ensures TotalRequired(sent) == if args.numIdeaGen == 0 then 0 else args.numPkgs
    ensures ideaChecksum.value == old(ideaChecksum.value) + IdeasChecksum(sent)
    ensures isOutOfIdeasSend.items
            == old(isOutOfIdeasSend.items) + Tokens(if args.numIdeaGen == 0 then 0 else args.numStudents)
  {
    sent := [];
    if args.numIdeaGen == 0 {
      return;
    }
    ghost var ideas0, tokens0, checksum0 := ideaSend.items, isOutOfIdeasSend.items, ideaChecksum.value;
    var startIdx := 0;
    for i := 0 to args.numIdeaGen
      invariant startIdx == Offset(i, args.numIdeas, args.numIdeaGen)
      invariant ideaSend.items == ideas0 + Generated(args, pairs, i)
      invariant ideaChecksum.value == checksum0 + IdeasChecksum(Generated(args, pairs, i))
      invariant isOutOfIdeasSend.items == tokens0 + Tokens(Offset(i, args.numStudents, args.numIdeaGen))
    {
      var numIdeas := SpawnIdeaGenerator(args, pairs, i, startIdx, ideaSend, isOutOfIdeasSend, ideaChecksum,
                                         ideas0, tokens0, checksum0);
      startIdx := startIdx + numIdeas;
    }
    sent := Generated(args, pairs, args.numIdeaGen);
    GeneratorsCoverTotals(args, pairs);
    assert startIdx == args.numIdeas;
  }

  /** A student that starts with an empty buffer uses a prefix of what the
      package channel held. */
  lemma UsedPrefix(pkgs0: seq<Package>, received: seq<Package>, rest: seq<Package>,
                   used: seq<Package>, buffer: seq<Package>)
    requires pkgs0 == received + rest
    requires used + buffer == [] + received
    ensures |used| <= |pkgs0| && used == pkgs0[..|used|]
  {
    assert used + buffer == received;
    assert received[..|used|] == used;
  }

  /** The student loop of `hackathon`, run after the producers: student
      `i` starts with no idea and an empty buffer and runs until it takes a
      token. The first student builds every idea, draining the packages
      the ideas require from the front of the package channel; every later
      one finds the idea channel empty. A student that finds neither an idea
      nor a token would poll forever: the run is then not `completed`. */
  method RunStudents(numStudents: nat, ideaRecv: Channel<Idea>, pkgRecv: Channel<Package>,
                     isOutOfIdeasRecv: Channel<bool>,
                     studentIdeaChecksum: SharedChecksum, studentPkgChecksum: SharedChecksum)
    returns (completed: bool)
    requires studentIdeaChecksum != studentPkgChecksum
    requires TotalRequired(ideaRecv.items) <= |pkgRecv.items|
    modifies ideaRecv, pkgRecv, isOutOfIdeasRecv, studentIdeaChecksum, studentPkgChecksum
    ensures completed <==> numStudents <= |old(isOutOfIdeasRecv.items)|
    ensures completed && numStudents > 0 ==>
              && studentIdeaChecksum.value == old(studentIdeaChecksum.value) + IdeasChecksum(old(ideaRecv.items))
              && studentPkgChecksum.value
                 == old(studentPkgChecksum.value) + PackagesChecksum(old(pkgRecv.items)[..TotalRequired(old(ideaRecv.items))])
    ensures numStudents == 0 ==>
              studentIdeaChecksum.value == old(studentIdeaChecksum.value)
              && studentPkgChecksum.value == old(studentPkgChecksum.value)
  {
    ghost var ideas0, pkgs0, tokens0 := ideaRecv.items, pkgRecv.items, isOutOfIdeasRecv.items;
    ghost var ideaSum0, pkgSum0 := studentIdeaChecksum.value, studentPkgChecksum.value;
    ghost var demand := TotalRequired(ideas0);
    for i := 0 to numStudents
      invariant i <= |tokens0| && isOutOfIdeasRecv.items == tokens0[i..]
      invariant i == 0 ==>
                  && ideaRecv.items == ideas0 && pkgRecv.items == pkgs0
                  && studentIdeaChecksum.value == ideaSum0 && studentPkgChecksum.value == pkgSum0
      invariant i > 0 ==>
                  && ideaRecv.items == [] && demand <= |pkgs0|
                  && studentIdeaChecksum.value == ideaSum0 + IdeasChecksum(ideas0)
                  && studentPkgChecksum.value == pkgSum0 + PackagesChecksum(pkgs0[..demand])
    {
      ghost var available := pkgRecv.items;
      var student := new Student(i, ideaRecv, pkgRecv, isOutOfIdeasRecv);
      var outcome, built, received, used := student.Run(studentIdeaChecksum, studentPkgChecksum);
      if outcome != Finished {
        completed := false;
        return;
      }
      assert isOutOfIdeasRecv.items == tokens0[i + 1..];
      UsedPrefix(available, received, pkgRecv.items, used, student.pkgs);
      if i == 0 {
        assert built == ideas0 && used == pkgs0[..demand];
      } else {
        assert built == [] && used == [];
        assert IdeasChecksum([]) == multiset{};
        assert PackagesChecksum([]) == multiset{};
      }
    }
    completed := true;
  }

  /** The downloader half of `hackathon`: a fresh package channel and
      checksum, then the downloaders. Returns the channel as they left it and
      their final checksum: the names of the packages of global indices
      `0 .. numPkgs - 1`. */
  method RunDownloaders(numPkgs: nat, numPkgGen: nat, packageLines: seq<string>)
    returns (pkgChannel: Channel<Package>, pkg: Checksum)
    requires numPkgGen >= 1 || numPkgs == 0
    requires numPkgs > 0 ==> |packageLines| > 0
    ensures fresh(pkgChannel)
    ensures pkgChannel.items == PackageBatch(packageLines, 0, numPkgs)
    ensures pkg == multiset(PackageNames(PackageBatch(packageLines, 0, numPkgs)))
  {
    pkgChannel := new Channel<Package>();
    var pkgChecksum := new SharedChecksum();
    SpawnDownloaders(numPkgs, numPkgGen, packageLines, pkgChannel, pkgChecksum);
    pkg := pkgChecksum.value;
    PackagesChecksumIsNames(PackageBatch(packageLines, 0, numPkgs));
  }

  /** The generator half of `hackathon`: fresh idea and token channels and
      a fresh checksum, then the generators. Returns the channels as they
      left them and their final checksum: the names of the ideas of global
      indices `0 .. numIdeas - 1`. */
  method RunGenerators(args: Args, pairs: seq<(string, string)>)
    returns (ideaChannel: Channel<Idea>, outOfIdeaChannel: Channel<bool>, idea: Checksum, ghost sent: seq<Idea>)
    requires args.numIdeaGen <= args.numIdeas
    requires args.numIdeas > 0 ==> args.numIdeaGen >= 1 && |pairs| > 0
    ensures fresh(ideaChannel) && fresh(outOfIdeaChannel)
    ensures ideaChannel.items == sent && IdeaNames(sent) == GlobalIdeaNames(pairs, 0, args.numIdeas)
    ensures TotalRequired(sent) == if args.numIdeas == 0 then 0 else args.numPkgs
    ensures outOfIdeaChannel.items == Tokens(if args.numIdeas == 0 then 0 else args.numStudents)
    ensures idea == multiset(GlobalIdeaNames(pairs, 0, args.numIdeas)) == multiset(IdeaNames(sent))
  {
    ideaChannel := new Channel<Idea>();
    outOfIdeaChannel := new Channel<bool>();
    var ideaChecksum := new SharedChecksum();
    sent := SpawnIdeaGenerators(args, pairs, ideaChannel, outOfIdeaChannel, ideaChecksum);
    idea := ideaChecksum.value;
    IdeasChecksumIsNames(sent);
  }

  /** The student half of `hackathon`: fresh student checksums, then the
      students. Returns the final student checksums. */
  method RunConsumers(numStudents: nat, ideaChannel: Channel<Idea>, pkgChannel: Channel<Package>,
                      outOfIdeaChannel: Channel<bool>)
    returns (studentIdea: Checksum, studentPkg: Checksum, completed: bool)
    requires TotalRequired(ideaChannel.items) <= |pkgChannel.items|
    modifies ideaChannel, pkgChannel, outOfIdeaChannel
    ensures completed <==> numStudents <= |old(outOfIdeaChannel.items)|
    ensures completed && numStudents > 0 ==>
              && studentIdea == multiset(IdeaNames(old(ideaChannel.items)))
              && studentPkg == multiset(PackageNames(old(pkgChannel.items)[..TotalRequired(old(ideaChannel.items))]))
    ensures numStudents == 0 ==> studentIdea == multiset{} && studentPkg == multiset{}
  {
    var studentIdeaChecksum := new SharedChecksum();
    var studentPkgChecksum := new SharedChecksum();
    completed := RunStudents(numStudents, ideaChannel, pkgChannel, outOfIdeaChannel,
                             studentIdeaChecksum, studentPkgChecksum);
    studentIdea, studentPkg := studentIdeaChecksum.value, studentPkgChecksum.value;
    IdeasChecksumIsNames(old(ideaChannel.items));
    PackagesChecksumIsNames(old(pkgChannel.items)[..TotalRequired(old(ideaChannel.items))]);
  }

  /** `hackathon`: the channels and the four checksums, the students,
      the downloaders and the generators, then the final checksums. The
      requirements are exactly what keeps the source from panicking: the
      `assert_eq!` after each spawning loop, a generator without ideas
      dividing by zero, and a name taken modulo an empty list. At the end
      the generators' checksum holds the names of the ideas of global
      indices `0 .. numIdeas - 1` and the downloaders' checksum those of the
      packages of `0 .. numPkgs - 1`. The run completes unless there are
      students but no ideas (and so no tokens), and when students complete
      it, their checksums equal the producers'. */
  method RunHackathon(args: Args, productsLines: seq<string>, customersLines: seq<string>, packageLines: seq<string>)
    returns (idea: Checksum, studentIdea: Checksum, pkg: Checksum, studentPkg: Checksum, completed: bool)
    requires args.numPkgGen >= 1 || args.numPkgs == 0
    requires args.numPkgs > 0 ==> |packageLines| > 0
    requires args.numIdeaGen <= args.numIdeas
    requires args.numIdeas > 0 ==> args.numIdeaGen >= 1 && |productsLines| > 0 && |customersLines| > 0
    ensures idea == multiset(GlobalIdeaNames(CrossProduct(productsLines, customersLines), 0, args.numIdeas))
    ensures pkg == multiset(PackageNames(PackageBatch(packageLines, 0, args.numPkgs)))
    ensures completed <==> args.numStudents == 0 || args.numIdeas > 0
    ensures completed && args.numStudents > 0 ==> studentIdea == idea && studentPkg == pkg
    ensures args.numStudents == 0 ==> studentIdea == multiset{} && studentPkg == multiset{}
  {
    var pairs := CrossProduct(productsLines, customersLines);
    var pkgChannel;
    pkgChannel, pkg := RunDownloaders(args.numPkgs, args.numPkgGen, packageLines);
    ghost var sent;
    var ideaChannel, outOfIdeaChannel;
    ideaChannel, outOfIdeaChannel, idea, sent := RunGenerators(args, pairs);
    ghost var pkgsSent := pkgChannel.items;
    studentIdea, studentPkg, completed := RunConsumers(args.numStudents, ideaChannel, pkgChannel, outOfIdeaChannel);
    if args.numIdeas > 0 {
      assert TotalRequired(sent) == |pkgsSent|;
      assert pkgsSent[..TotalRequired(sent)] == pkgsSent;
    }
  }
}
