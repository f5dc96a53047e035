/** Package generation (src/package.rs): naming packages cyclically from a
    fixed list and the downloader's run. */
module Packages {
  import opened Checksums
  import opened Channels
  import opened Arith

  datatype Package = Package(name: string)

  /** The name of the package at global index `idx`: the lines are reused
      cyclically. */
  function PackageName(packageLines: seq<string>, idx: nat): (name: string)
    requires |packageLines| > 0
    ensures name in packageLines
  {
    packageLines[idx % |packageLines|]
  }

  /** The first `count` packages a downloader that starts at global index
      `startIdx` sends, in order. */
  function PackageBatch(packageLines: seq<string>, startIdx: nat, count: nat): (batch: seq<Package>)
    requires |packageLines| > 0 || count == 0
    ensures |batch| == count
  {
    if count == 0 then []
    else PackageBatch(packageLines, startIdx, count - 1) + [Package(PackageName(packageLines, startIdx + count - 1))]
  }

  /** The names of packages, in order. */
  function PackageNames(pkgs: seq<Package>): seq<string>
  {
    seq(|pkgs|, i requires 0 <= i < |pkgs| => pkgs[i].name)
  }

  /** The checksum of packages: the digests of their names combined in
      order, as the downloader's batch loop and a student's build do. */
  function PackagesChecksum(pkgs: seq<Package>): Checksum
  {
    if pkgs == [] then Default()
    else Combine(PackagesChecksum(pkgs[..|pkgs| - 1]), WithSha256(pkgs[|pkgs| - 1].name))
  }

  /** Feeding one more package into the checksum. */
  lemma PackagesChecksumSnoc(pkgs: seq<Package>, p: Package)
    ensures PackagesChecksum(pkgs + [p]) == Combine(PackagesChecksum(pkgs), WithSha256(p.name))
  {
    assert (pkgs + [p])[..|pkgs|] == pkgs;
  }

  lemma {:induction false} PackagesChecksumConcat(a: seq<Package>, b: seq<Package>)
    ensures PackagesChecksum(a + b) == Combine(PackagesChecksum(a), PackagesChecksum(b))
    decreases |b|
  {
    if b == [] {
      assert a + b == a;
    } else {
      assert (a + b)[..|a + b| - 1] == a + b[..|b| - 1];
      PackagesChecksumConcat(a, b[..|b| - 1]);
    }
  }

  /** The checksum of packages is the multiset of their names. */
  lemma {:induction false} PackagesChecksumIsNames(pkgs: seq<Package>)
    ensures PackagesChecksum(pkgs) == multiset(PackageNames(pkgs))
    decreases |pkgs|
  {
    if pkgs != [] {
      var prefix, last := pkgs[..|pkgs| - 1], pkgs[|pkgs| - 1];
      PackagesChecksumIsNames(prefix);
      assert pkgs == prefix + [last];
      PackageNamesConcat(prefix, [last]);
      assert PackageNames([last]) == [last.name];
    }
  }

  lemma PackageNamesConcat(a: seq<Package>, b: seq<Package>)
    ensures PackageNames(a + b) == PackageNames(a) + PackageNames(b)
  {
  }

  /** Package `i` of a batch is the package at global index `startIdx + i`. */
  lemma {:induction false} PackageBatchAt(packageLines: seq<string>, startIdx: nat, count: nat, i: nat)
    requires |packageLines| > 0 && i < count
    ensures PackageBatch(packageLines, startIdx, count)[i] == Package(PackageName(packageLines, startIdx + i))
  {
    if i < count - 1 {
      PackageBatchAt(packageLines, startIdx, count - 1, i);
    }
  }

  /** Two downloaders with adjacent ranges together send the packages of
      one contiguous range, in order. */
  lemma {:induction false} PackageBatchConcat(packageLines: seq<string>, startIdx: nat, m: nat, n: nat)
    requires |packageLines| > 0 || m + n == 0
    ensures PackageBatch(packageLines, startIdx, m) + PackageBatch(packageLines, startIdx + m, n)
            == PackageBatch(packageLines, startIdx, m + n)
  {
    if n > 0 {
      PackageBatchConcat(packageLines, startIdx, m, n - 1);
    }
  }

  /** Names repeat with period `|packageLines|`: reuse is by design. */
  lemma PackageNameCycles(packageLines: seq<string>, idx: nat)
    requires |packageLines| > 0
    ensures PackageName(packageLines, idx + |packageLines|) == PackageName(packageLines, idx)
  {
    ModAddPeriod(idx, |packageLines|);
  }

  /** Within a batch longer than the list, package `i + |packageLines|`
      has the name of package `i`. */
  lemma PackageBatchRepeats(packageLines: seq<string>, startIdx: nat, count: nat, i: nat)
    requires |packageLines| > 0 && i + |packageLines| < count
    ensures PackageBatch(packageLines, startIdx, count)[i + |packageLines|]
            == PackageBatch(packageLines, startIdx, count)[i]
  {
    PackageBatchAt(packageLines, startIdx, count, i);
    PackageBatchAt(packageLines, startIdx, count, i + |packageLines|);
    PackageNameCycles(packageLines, startIdx + i);
  }

  /** One more turn of the downloader's batch loop, sending the package of
      global index `startIdx + i` after the packages already in the channel. */
  lemma PackageBatchStep(packageLines: seq<string>, startIdx: nat, i: nat, before: seq<Package>)
    requires |packageLines| > 0
    ensures var pkg := Package(packageLines[(startIdx + i) % |packageLines|]);
            && (before + PackageBatch(packageLines, startIdx, i)) + [pkg]
               == before + PackageBatch(packageLines, startIdx, i + 1)
            && Combine(PackagesChecksum(PackageBatch(packageLines, startIdx, i)), WithSha256(pkg.name))
               == PackagesChecksum(PackageBatch(packageLines, startIdx, i + 1))
  {
    var sent, pkg := PackageBatch(packageLines, startIdx, i), Package(packageLines[(startIdx + i) % |packageLines|]);
    assert PackageBatch(packageLines, startIdx, i + 1) == sent + [pkg];
    PackagesChecksumSnoc(sent, pkg);
    AppendAssociates(before, sent, [pkg]);
  }

  /** `PackageDownloader`: sends `numPkgs` packages from global index
      `pkgStartIdx`. */
  class PackageDownloader {
    const pkgStartIdx: nat
    const numPkgs: nat
    const pkgSend: Channel<Package>
    const packageLines: seq<string>

    constructor (pkgStartIdx: nat, numPkgs: nat, pkgSend: Channel<Package>, packageLines: seq<string>)
      ensures this.pkgStartIdx == pkgStartIdx && this.numPkgs == numPkgs
      ensures this.pkgSend == pkgSend && this.packageLines == packageLines
    {
      this.pkgStartIdx := pkgStartIdx;
      this.numPkgs := numPkgs;
      this.pkgSend := pkgSend;
      this.packageLines := packageLines;
    }

    /** The batch loop of `run`: sends the packages in index order and
        returns the checksum of exactly the sent names. */
    method SendPackages() returns (batchChecksum: Checksum)
      requires |packageLines| > 0 || numPkgs == 0
      modifies pkgSend
      ensures pkgSend.items == old(pkgSend.items) + PackageBatch(packageLines, pkgStartIdx, numPkgs)
      ensures batchChecksum == PackagesChecksum(PackageBatch(packageLines, pkgStartIdx, numPkgs))
    {
      // the downloader's parameters, read once
      var lines, firstIdx, count := packageLines, pkgStartIdx, numPkgs;

      batchChecksum := Default();
      for i := 0 to count
        invariant pkgSend.items == old(pkgSend.items) + PackageBatch(lines, firstIdx, i)
        invariant batchChecksum == PackagesChecksum(PackageBatch(lines, firstIdx, i))
      {
        var name := lines[(firstIdx + i) % |lines|];
        PackageBatchStep(lines, firstIdx, i, old(pkgSend.items));

        batchChecksum := Combine(batchChecksum, WithSha256(name));
        pkgSend.Send(Package(name));
      }
    }

    /** `run`: sends the batch in index order and merges the checksum of
        exactly the sent names once, after the loop. */
    method Run(pkgChecksum: SharedChecksum)
      requires |packageLines| > 0 || numPkgs == 0
      modifies pkgSend, pkgChecksum
      ensures pkgSend.items == old(pkgSend.items) + PackageBatch(packageLines, pkgStartIdx, numPkgs)
      ensures pkgChecksum.value
              == old(pkgChecksum.value) + PackagesChecksum(PackageBatch(packageLines, pkgStartIdx, numPkgs))
      ensures pkgChecksum.merges == old(pkgChecksum.merges) + 1
    {
      var batchChecksum := SendPackages();
      pkgChecksum.Update(batchChecksum);
    }
  }
}
