/** Where artifacts go on a node (`_dest_for` of src/solfleet/operations.py). */
module Layout {
  import opened Text
  import opened Config
  import opened Remote
  import opened Builder

  /** Length of the part of a path up to and including its last slash. */
  function HeadLength(p: string): (n: nat)
    ensures n <= |p|
  {
    if p == "" then 0
    else if p[|p| - 1] == '/' then |p|
    else HeadLength(p[..|p| - 1])
  }

  function StripSlashes(p: string): string {
    if p != "" && p[|p| - 1] == '/' then StripSlashes(p[..|p| - 1]) else p
  }

  /** `os.path.dirname`: a head of slashes only is kept as it is. */
  function Dirname(p: string): string {
    var head := p[..HeadLength(p)];
    if StripSlashes(head) == "" then head else StripSlashes(head)
  }

  function BinDir(node: Node): string {
    if Dirname(node.service.binary) == "" then "/usr/local/bin" else Dirname(node.service.binary)
  }

  /** Final path of an artifact, None when the node has no place for it. */
  function DestFor(node: Node, name: string): Option<string> {
    if name == GEYSER_LIB then node.service.geyserLib
    else if name in AGAVE_BINS then Some(BinDir(node) + "/" + name)
    else None
  }

  /** Where an artifact waits beside its destination until the swap. */
  function Staged(dest: string): string {
    dest + ".solfleet-new"
  }

  function Marker(node: Node): Option<string> {
    if Truthy(node.service.versionMarker) then node.service.versionMarker else None
  }

  ghost predicate IsDest(node: Node, names: seq<string>, p: string) {
    exists n | n in names :: DestFor(node, n) == Some(p)
  }

  ghost predicate IsStaged(node: Node, names: seq<string>, p: string) {
    exists n | n in names && DestFor(node, n).Some? :: Staged(DestFor(node, n).value) == p
  }

  /** Destinations, staged names and the marker do not run into each other. */
  ghost predicate PathsDistinct(node: Node, names: seq<string>) {
    && (forall i, j | 0 <= i < j < |names| && DestFor(node, names[i]).Some? ::
          DestFor(node, names[i]) != DestFor(node, names[j]))
    && (forall m, n | m in names && n in names && DestFor(node, m).Some? && DestFor(node, n).Some? ::
          DestFor(node, m).value != Staged(DestFor(node, n).value))
    && (Marker(node).Some? ==>
          !IsDest(node, names, Marker(node).value) && !IsStaged(node, names, Marker(node).value))
  }

  lemma StagedInjective(a: string, b: string)
    ensures Staged(a) == Staged(b) <==> a == b
  {
    assert Staged(a)[..|Staged(a)| - 13] == a && Staged(b)[..|Staged(b)| - 13] == b;
  }

  /** A binary's path ends in the last letter of its name; a staged name in `w`. */
  lemma LastLetters(node: Node, name: string, dest: string)
    requires name in AGAVE_BINS
    ensures DestFor(node, name) == Some(BinDir(node) + "/" + name)
    ensures var p := DestFor(node, name).value;
      p != "" && p[|p| - 1] == name[|name| - 1] && p[|p| - 1] != Staged(dest)[|Staged(dest)| - 1]
  {}

  /** The binaries never collide among themselves: only the configured plugin path
      and the marker path can spoil a layout. */
  ghost predicate ConfiguredPathsApart(node: Node, install: Install) {
    var plugin := if BuildsGeyser(install) then node.service.geyserLib else None;
    && (plugin.Some? ==> !IsDest(node, AGAVE_BINS, plugin.value) && !IsStaged(node, AGAVE_BINS, plugin.value))
    && (Marker(node).Some? ==>
          && !IsDest(node, ArtifactNames(install), Marker(node).value)
          && !IsStaged(node, ArtifactNames(install), Marker(node).value))
  }

  lemma BinDestsDiffer(node: Node, i: nat, j: nat)
    requires i < j < 3
    ensures DestFor(node, AGAVE_BINS[i]) != DestFor(node, AGAVE_BINS[j])
  {
    LastLetters(node, AGAVE_BINS[i], "");
    LastLetters(node, AGAVE_BINS[j], "");
    assert AGAVE_BINS[0][14] == 'r' && AGAVE_BINS[1][16] == 'l' && AGAVE_BINS[2][5] == 'a';
  }

  lemma PathsDistinctIff(node: Node, install: Install)
    ensures PathsDistinct(node, ArtifactNames(install)) <==> ConfiguredPathsApart(node, install)
  {
    if ConfiguredPathsApart(node, install) {
      ApartIsDistinct(node, install);
    }
    if PathsDistinct(node, ArtifactNames(install)) {
      DistinctIsApart(node, install);
    }
  }

  lemma DistinctIsApart(node: Node, install: Install)
    requires PathsDistinct(node, ArtifactNames(install))
    ensures ConfiguredPathsApart(node, install)
  {
    var names := ArtifactNames(install);
    if BuildsGeyser(install) {
      assert names[3] == GEYSER_LIB;
      forall n | n in AGAVE_BINS ensures DestFor(node, n) != DestFor(node, GEYSER_LIB) {
        var i :| 0 <= i < 3 && AGAVE_BINS[i] == n;
        assert names[i] == n;
        LastLetters(node, n, "");
      }
      assert forall n | n in AGAVE_BINS :: n in names;
    }
  }

  lemma ApartIsDistinct(node: Node, install: Install)
    requires ConfiguredPathsApart(node, install)
    ensures PathsDistinct(node, ArtifactNames(install))
  {
    var names := ArtifactNames(install);
    assert forall i | 0 <= i < 3 :: names[i] == AGAVE_BINS[i];
    forall i, j | 0 <= i < j < |names| && DestFor(node, names[i]).Some?
      ensures DestFor(node, names[i]) != DestFor(node, names[j])
    {
      if j < 3 {
        BinDestsDiffer(node, i, j);
      } else {
        assert names[j] == GEYSER_LIB && names[i] in AGAVE_BINS;
      }
    }
    forall m, n | m in names && n in names && DestFor(node, m).Some? && DestFor(node, n).Some?
      ensures DestFor(node, m).value != Staged(DestFor(node, n).value)
    {
      if m in AGAVE_BINS {
        LastLetters(node, m, DestFor(node, n).value);
      } else {
        assert m == GEYSER_LIB;
        if n !in AGAVE_BINS {
          assert n == GEYSER_LIB;
          assert |Staged(DestFor(node, n).value)| > |DestFor(node, m).value|;
        }
      }
    }
  }

  // ---- the binary the unit runs -------------------------------------------

  ghost predicate NoSlash(name: string) {
    forall i | 0 <= i < |name| :: name[i] != '/'
  }

  lemma {:induction false} HeadLengthOf(dir: string, name: string)
    requires NoSlash(name)
    ensures HeadLength(dir + "/" + name) == |dir| + 1
  {
    var p := dir + "/" + name;
    if name != "" {
      HeadLengthOf(dir, name[..|name| - 1]);
      assert p[..|p| - 1] == dir + "/" + name[..|name| - 1];
    }
  }

  lemma {:induction false} StripSlashesEnd(p: string)
    ensures StripSlashes(p) == "" || StripSlashes(p)[|StripSlashes(p)| - 1] != '/'
  {
    if p != "" && p[|p| - 1] == '/' {
      StripSlashesEnd(p[..|p| - 1]);
    }
  }

  function Slashes(n: nat): string {
    seq(n, i => '/')
  }

  lemma {:induction false} StripAllSlashes(dir: string, n: nat)
    requires dir == "" || dir[|dir| - 1] != '/'
    ensures StripSlashes(dir + Slashes(n)) == dir
  {
    var p := dir + Slashes(n);
    if n > 0 {
      assert p[..|p| - 1] == dir + Slashes(n - 1);
      StripAllSlashes(dir, n - 1);
    } else {
      assert p == dir;
    }
  }

  lemma {:induction false} NoHead(name: string)
    requires NoSlash(name)
    ensures HeadLength(name) == 0
  {
    if name != "" {
      NoHead(name[..|name| - 1]);
    }
  }

  lemma DirnameIs(dir: string, n: nat, base: string)
    requires dir == "" || (dir[|dir| - 1] != '/' && n > 0)
    requires NoSlash(base)
    ensures Dirname(dir + Slashes(n) + base) == if dir == "" then Slashes(n) else dir
  {
    var p := dir + Slashes(n) + base;
    if n == 0 {
      assert p == base && Slashes(0) == "";
      NoHead(base);
    } else {
      assert p == (dir + Slashes(n - 1)) + "/" + base;
      HeadLengthOf(dir + Slashes(n - 1), base);
      assert p[..HeadLength(p)] == dir + Slashes(n);
      StripAllSlashes(dir, n);
    }
  }

  /** Where each artifact goes, for every way to write the path of the unit's binary: the
      binaries beside it, or under /usr/local/bin when it is a bare name; the plugin to
      its configured path; nothing else anywhere. */
  lemma DestinationsAre(node: Node, dir: string, n: nat, base: string, name: string)
    requires dir == "" || (dir[|dir| - 1] != '/' && n > 0)
    requires NoSlash(base) && node.service.binary == dir + Slashes(n) + base
    ensures var root := if dir != "" then dir else if n > 0 then Slashes(n) else "/usr/local/bin";
      DestFor(node, name) ==
        if name == "libyellowstone_grpc_geyser.so" then node.service.geyserLib
        else if name in ["agave-validator", "agave-ledger-tool", "solana"] then Some(root + "/" + name)
        else None
  {
    DirnameIs(dir, n, base);
    assert n > 0 ==> Slashes(n)[0] == '/';
  }

  lemma BinDirOf(node: Node, dir: string, name: string)
    requires NoSlash(name) && node.service.binary == dir + "/" + name
    requires dir != "" && dir[|dir| - 1] != '/'
    ensures BinDir(node) == dir
  {
    HeadLengthOf(dir, name);
    var head := node.service.binary[..HeadLength(node.service.binary)];
    assert head == dir + "/";
    assert head[..|head| - 1] == dir;
    assert StripSlashes(dir) == dir;
  }

  /** `service.binary` is a path `dir/name` with a plain `dir`. */
  ghost predicate RunsFrom(node: Node, dir: string, name: string) {
    dir != "" && dir[|dir| - 1] != '/' && node.service.binary == dir + "/" + name
  }

  /** The plan line announces a swap of `service.binary`. What is swapped in lies under
      the fixed artifact name: it is the binary the unit runs exactly when that binary
      is called `agave-validator`, in a directory written without a trailing slash. */
  lemma SwapsTheBinaryIff(node: Node)
    ensures DestFor(node, AGAVE_BINS[0]) == Some(node.service.binary) <==>
      exists dir :: RunsFrom(node, dir, AGAVE_BINS[0])
  {
    var name := AGAVE_BINS[0];
    assert NoSlash(name);
    if exists dir :: RunsFrom(node, dir, name) {
      var dir :| RunsFrom(node, dir, name);
      BinDirOf(node, dir, name);
    }
    if node.service.binary == BinDir(node) + "/" + name {
      RunsFromBinDir(node, name);
    }
  }

  lemma RunsFromBinDir(node: Node, name: string)
    requires NoSlash(name) && node.service.binary == BinDir(node) + "/" + name
    ensures RunsFrom(node, BinDir(node), name)
  {
    var binary := node.service.binary;
    HeadLengthOf(BinDir(node), name);
    var head := binary[..HeadLength(binary)];
    assert head == BinDir(node) + "/";
    StripSlashesEnd(head);
    assert "/usr/local/bin"[13] == 'n';
    assert |BinDir(node)| < |head|;
  }

  /** A unit that runs `fdctl` beside the artifacts is never upgraded by the swap. */
  lemma OtherBinaryIsNotSwapped(node: Node)
    requires node.service.binary == "/opt/fdctl"
    ensures forall n | n in AGAVE_BINS :: DestFor(node, n) != Some(node.service.binary)
  {
    assert NoSlash("fdctl");
    assert "/opt/fdctl" == "/opt" + "/" + "fdctl";
    BinDirOf(node, "/opt", "fdctl");
    assert AGAVE_BINS[0][0] == 'a' && AGAVE_BINS[1][0] == 'a' && AGAVE_BINS[2][0] == 's' && "fdctl"[0] == 'f';
    forall n | n in AGAVE_BINS ensures (BinDir(node) + "/" + n)[5] != node.service.binary[5] {
      assert (BinDir(node) + "/" + n)[5] == n[0];
    }
  }
}
