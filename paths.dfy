/**
 * The part of `pathlib.PurePosixPath` the checkpoint coordinator relies on:
 * parsing a string, `parent`, `name`, `stem` and joining one more name with
 * `/`.  A parsed path is its anchor and its list of components; two paths
 * are the same path exactly when these agree.
 */
module Paths {

  datatype Path = Path(anchor: string, parts: seq<string>)

  /** A component as parsing leaves it: not empty, not '.', no separator. */
  predicate IsPart(s: string) {
    s != "" && s != "." && '/' !in s
  }

  predicate IsParsed(p: Path) {
    && (p.anchor == "" || p.anchor == "/" || p.anchor == "//")
    && forall i :: 0 <= i < |p.parts| ==> IsPart(p.parts[i])
  }

  // ------------------------------------------------------------ parsing

  /** `s.split('/')`: the pieces between separators, empty ones included. */
  function SplitSlash(s: string): (r: seq<string>)
    ensures |r| >= 1
    ensures forall i :: 0 <= i < |r| ==> '/' !in r[i]
  {
    if s == [] then [""]
    else if s[0] == '/' then [""] + SplitSlash(s[1..])
    else
      var rest := SplitSlash(s[1..]);
      [[s[0]] + rest[0]] + rest[1..]
  }

  /** `'/'.join(pieces)`. */
  function JoinSlash(pieces: seq<string>): string
    requires |pieces| >= 1
  {
    if |pieces| == 1 then pieces[0] else pieces[0] + "/" + JoinSlash(pieces[1..])
  }

  /** Splitting loses nothing: joining the pieces gives the string back. */
  lemma {:induction false} SplitJoin(s: string)
    ensures JoinSlash(SplitSlash(s)) == s
  {
    if s == [] {
    } else if s[0] == '/' {
      SplitJoin(s[1..]);
      var rest := SplitSlash(s[1..]);
      assert ([""] + rest)[1..] == rest;
    } else {
      SplitJoin(s[1..]);
      var rest := SplitSlash(s[1..]);
      var r := [[s[0]] + rest[0]] + rest[1..];
      if |rest| == 1 {
        assert JoinSlash(r) == [s[0]] + rest[0];
      } else {
        assert r[1..] == rest[1..];
        assert JoinSlash(r) == [s[0]] + rest[0] + "/" + JoinSlash(rest[1..]);
        assert JoinSlash(rest) == rest[0] + "/" + JoinSlash(rest[1..]);
      }
      assert s == [s[0]] + s[1..];
    }
  }

  /** The pieces kept as components: empty pieces and '.' are dropped. */
  function Components(pieces: seq<string>): (r: seq<string>)
    requires forall i :: 0 <= i < |pieces| ==> '/' !in pieces[i]
    ensures |r| <= |pieces|
    ensures forall i :: 0 <= i < |r| ==> IsPart(r[i])
    ensures forall x :: x in r <==> x in pieces && IsPart(x)
  {
    if pieces == [] then []
    else if pieces[0] == "" || pieces[0] == "." then Components(pieces[1..])
    else [pieces[0]] + Components(pieces[1..])
  }

  /**
   * The root of a POSIX path: exactly two leading separators are kept as
   * "//", one or three and more become "/", none gives a relative path.
   */
  function Anchor(s: string): (a: string)
    ensures a == "" <==> s == [] || s[0] != '/'
  {
    if s == [] || s[0] != '/' then ""
    else if |s| >= 2 && s[1] == '/' && !(|s| >= 3 && s[2] == '/') then "//"
    else "/"
  }

  /** `PurePosixPath(s)`. */
  function Parse(s: string): (p: Path)
    ensures IsParsed(p)
  {
    Path(Anchor(s), Components(SplitSlash(s)))
  }

  /** `str(path)`: the anchor followed by the components joined with '/'. */
  function Format(p: Path): (r: string)
    ensures |p.anchor| <= |r| && r[..|p.anchor|] == p.anchor
    ensures p.parts == [] && p.anchor != "" ==> r == p.anchor
    ensures p.parts == [] && p.anchor == "" ==> r == "."
  {
    if p.parts == [] then (if p.anchor == "" then "." else p.anchor)
    else p.anchor + JoinSlash(p.parts)
  }

  /** Splitting separator-free pieces joined with '/' gives the pieces back. */
  lemma {:induction false} SplitOfJoin(pieces: seq<string>)
    requires |pieces| >= 1 && forall i :: 0 <= i < |pieces| ==> '/' !in pieces[i]
    ensures SplitSlash(JoinSlash(pieces)) == pieces
  {
    if |pieces| == 1 {
      SplitNoSlash(pieces[0]);
    } else {
      SplitOfJoin(pieces[1..]);
      SplitAtFirst(pieces[0], JoinSlash(pieces[1..]));
      assert [pieces[0]] + pieces[1..] == pieces;
    }
  }

  /** Proper components are all kept, in order. */
  lemma {:induction false} ComponentsOfParts(parts: seq<string>)
    requires forall i :: 0 <= i < |parts| ==> '/' !in parts[i]
    requires forall i :: 0 <= i < |parts| ==> IsPart(parts[i])
    ensures Components(parts) == parts
  {
    if parts != [] {
      ComponentsOfParts(parts[1..]);
      assert [parts[0]] + parts[1..] == parts;
    }
  }

  /** The joined components start with the first one, so not with a separator. */
  lemma JoinStartsWithPart(parts: seq<string>)
    requires |parts| >= 1 && IsPart(parts[0])
    ensures |JoinSlash(parts)| >= 1 && JoinSlash(parts)[0] == parts[0][0] != '/'
  {
    if |parts| > 1 {
      assert JoinSlash(parts) == parts[0] + "/" + JoinSlash(parts[1..]);
    }
  }

  /** An anchor alone parses back to itself with no components. */
  lemma ParseAnchorOnly(a: string)
    requires a == "" || a == "/" || a == "//"
    ensures Parse(a) == Path(a, [])
  {
    SplitAfterAnchor(a, "");
    assert a + "" == a;
    DropEmptyPieces(AnchorPieces(a), [""]);
  }

  /** Leading empty pieces leave no component. */
  lemma {:induction false} DropEmptyPieces(empties: seq<string>, parts: seq<string>)
    requires forall i :: 0 <= i < |empties| ==> empties[i] == ""
    requires forall i :: 0 <= i < |parts| ==> '/' !in parts[i]
    ensures Components(empties + parts) == Components(parts)
  {
    if empties != [] {
      DropEmptyPieces(empties[1..], parts);
      var pieces := empties + parts;
      assert pieces[0] == empties[0] == "";
      assert pieces[1..] == empties[1..] + parts;
      assert Components(pieces) == Components(pieces[1..]);
    } else {
      assert empties + parts == parts;
    }
  }

  /** The empty pieces in front of the first component: one per leading separator. */
  function AnchorPieces(a: string): (r: seq<string>)
    ensures |r| == |a|
    ensures forall i :: 0 <= i < |r| ==> r[i] == ""
  {
    if a == [] then [] else [""] + AnchorPieces(a[1..])
  }

  /** A string after the anchor splits into the anchor's empty pieces and its own. */
  lemma SplitAfterAnchor(a: string, j: string)
    requires a == "" || a == "/" || a == "//"
    ensures SplitSlash(a + j) == AnchorPieces(a) + SplitSlash(j)
  {
    if a == "/" {
      SplitAtFirst("", j);
      assert "" + "/" + j == a + j;
      assert AnchorPieces(a) == [""];
    } else if a == "//" {
      SplitAtFirst("", j);
      SplitAtFirst("", "/" + j);
      assert "" + "/" + ("" + "/" + j) == a + j;
      assert AnchorPieces(a[1..]) == [""];
      assert AnchorPieces(a) == ["", ""];
    } else {
      assert a + j == j;
    }
  }

  /** The anchor is read back from a string whose rest does not start with a separator. */
  lemma AnchorOfPrefix(a: string, j: string)
    requires a == "" || a == "/" || a == "//"
    requires |j| >= 1 && j[0] != '/'
    ensures Anchor(a + j) == a
  {
    if a == "/" {
      assert (a + j)[1] == j[0];
    } else if a == "//" {
      assert (a + j)[1] == '/' && (a + j)[2] == j[0];
    } else {
      assert a + j == j;
    }
  }

  /**
   * Parsing is the inverse of `str`: every parsed path, written out and
   * parsed again, is the same path.
   */
  lemma ParseFormat(p: Path)
    requires IsParsed(p)
    ensures Parse(Format(p)) == p
  {
    if p.parts == [] && p.anchor == "" {
      SplitNoSlash(".");
      assert Components(["."]) == [];
    } else if p.parts == [] {
      ParseAnchorOnly(p.anchor);
    } else {
      var j := JoinSlash(p.parts);
      SplitOfJoin(p.parts);
      ComponentsOfParts(p.parts);
      JoinStartsWithPart(p.parts);
      SplitAfterAnchor(p.anchor, j);
      DropEmptyPieces(AnchorPieces(p.anchor), p.parts);
      AnchorOfPrefix(p.anchor, j);
    }
  }

  // ------------------------------------------------- parent, name, stem

  /** `path.name`: the last component, or "" when there is none. */
  function Name(p: Path): (n: string)
    ensures IsParsed(p) ==> (n == "" <==> p.parts == [])
  {
    if p.parts == [] then "" else p.parts[|p.parts| - 1]
  }

  /** `path.parent`: the path without its last component (the path itself if none). */
  function Parent(p: Path): (q: Path)
    ensures q.anchor == p.anchor && q.parts <= p.parts
    ensures p.parts != [] ==> |q.parts| == |p.parts| - 1
    ensures IsParsed(p) ==> IsParsed(q)
  {
    if p.parts == [] then p else Path(p.anchor, p.parts[..|p.parts| - 1])
  }

  /** `s.rfind('.')`: the index of the last dot, -1 when there is none. */
  function RFindDot(s: string): (i: int)
    ensures -1 <= i < |s|
    ensures i >= 0 ==> s[i] == '.'
    ensures forall j :: i < j < |s| ==> s[j] != '.'
  {
    if s == [] then -1
    else if s[|s| - 1] == '.' then |s| - 1
    else RFindDot(s[..|s| - 1])
  }

  /** Whether the last dot of a name starts a suffix: not first, not last. */
  predicate HasSuffix(name: string) {
    0 < RFindDot(name) < |name| - 1
  }

  /** `path.stem` of a name: the name without its suffix. */
  function Stem(name: string): (r: string)
    ensures r <= name
  {
    if HasSuffix(name) then name[..RFindDot(name)] else name
  }

  /** `path.suffix` of a name: from the last dot on, if that dot starts a suffix. */
  function Suffix(name: string): (r: string)
    ensures |r| <= |name| && r == name[|name| - |r|..]
    ensures r != "" ==> r[0] == '.' && forall j :: 0 < j < |r| ==> r[j] != '.'
  {
    if HasSuffix(name) then name[RFindDot(name)..] else ""
  }

  /**
   * A name is its stem followed by its suffix; a non-empty suffix is a dot
   * and at least one more character, none of them a dot, after a non-empty
   * stem.
   */
  lemma StemAndSuffix(name: string)
    ensures Stem(name) + Suffix(name) == name
    ensures Suffix(name) != "" ==>
      && |Suffix(name)| >= 2 && Suffix(name)[0] == '.' && Stem(name) != ""
      && forall j :: 1 <= j < |Suffix(name)| ==> Suffix(name)[j] != '.'
    ensures Suffix(name) == "" ==> Stem(name) == name
  {
    if HasSuffix(name) {
      var i := RFindDot(name);
      assert name[..i] + name[i..] == name;
      forall j | 1 <= j < |name[i..]| ensures name[i..][j] != '.' {
        assert name[i..][j] == name[i + j];
      }
    }
  }

  /** The last dot of `a + "." + b`, when b has none, is the one between them. */
  lemma {:induction false} RFindLastDot(a: string, b: string)
    requires '.' !in b
    ensures RFindDot(a + "." + b) == |a|
  {
    if b != [] {
      var s := a + "." + b;
      assert s[..|s| - 1] == a + "." + b[..|b| - 1];
      assert s[|s| - 1] == b[|b| - 1];
      RFindLastDot(a, b[..|b| - 1]);
    }
  }

  lemma {:induction false} RFindNoDot(s: string)
    requires '.' !in s
    ensures RFindDot(s) == -1
  {
    if s != [] {
      RFindNoDot(s[..|s| - 1]);
    }
  }

  /** Stems of a few names, as pathlib gives them. */
  lemma StemExamples()
    ensures Stem("ckpt.tmp") == "ckpt"
    ensures Stem("x.y.ckpt") == "x.y"
    ensures Stem(".hidden") == ".hidden"
    ensures Stem("ckpt.") == "ckpt."
    ensures Stem("..x") == "."
  {
    RFindLastDot("ckpt", "tmp");
    assert "ckpt" + "." + "tmp" == "ckpt.tmp";
    RFindLastDot("x.y", "ckpt");
    assert "x.y" + "." + "ckpt" == "x.y.ckpt";
    RFindLastDot("", "hidden");
    assert "" + "." + "hidden" == ".hidden";
    RFindLastDot(".", "x");
    assert "." + "." + "x" == "..x";
    RFindLastDot("ckpt", "");
    assert "ckpt" + "." + "" == "ckpt.";
  }

  // --------------------------------------------------------- joining

  /**
   * `path / name` for a name without separator: the name becomes the last
   * component, unless it is empty or '.', which parsing drops.
   */
  function JoinName(p: Path, name: string): (q: Path)
    requires '/' !in name
    ensures q.anchor == p.anchor
    ensures name == "" || name == "." ==> q == p
    ensures name != "" && name != "." ==> q.parts == p.parts + [name]
    ensures IsParsed(p) ==> IsParsed(q)
  {
    if name == "" || name == "." then p else Path(p.anchor, p.parts + [name])
  }

  /** A dotless, separator-free suffix never puts a separator into a name. */
  lemma NoSlashInStem(p: Path)
    requires IsParsed(p)
    ensures '/' !in Stem(Name(p)) && '/' !in Stem(Name(p)) + "_ema"
  {
  }

  // ------------------------------------------------- checkpoint layout

  /**
   * `get_checkpoint_directories(filepath)`: the raw directory
   * `parent/stem` and the EMA directory `parent/stem_ema`.
   */
  function CheckpointDirectories(filepath: string): (r: (Path, Path))
    ensures IsParsed(r.0) && IsParsed(r.1)
    ensures Parent(r.1) == Parent(Parse(filepath))
    ensures Name(r.1) == Stem(Name(Parse(filepath))) + "_ema"
  {
    var p := Parse(filepath);
    var stem := Stem(Name(p));
    NoSlashInStem(p);
    (JoinName(Parent(p), stem), JoinName(Parent(p), stem + "_ema"))
  }

  /** A stem that names a directory of its own (parsing keeps it). */
  predicate OrdinaryStem(filepath: string) {
    var stem := Stem(Name(Parse(filepath)));
    stem != "" && stem != "."
  }

  /** The two directories of a checkpoint are never the same directory. */
  lemma DirectoriesDistinct(filepath: string)
    ensures CheckpointDirectories(filepath).0 != CheckpointDirectories(filepath).1
  {
    var p := Parse(filepath);
    var (raw, ema) := CheckpointDirectories(filepath);
    var stem := Stem(Name(p));
    if OrdinaryStem(filepath) {
      assert raw.parts[|raw.parts| - 1] == stem;
      assert ema.parts[|ema.parts| - 1] == stem + "_ema";
      assert |stem| != |stem + "_ema"|;
    } else {
      assert |raw.parts| == |Parent(p).parts| < |ema.parts|;
    }
  }

  /**
   * For an ordinary stem both directories are siblings of the file,
   * named `stem` and `stem_ema`.
   */
  lemma DirectoriesAreSiblings(filepath: string)
    requires OrdinaryStem(filepath)
    ensures var (raw, ema) := CheckpointDirectories(filepath);
      && Parent(raw) == Parent(ema) == Parent(Parse(filepath))
      && Name(raw) == Stem(Name(Parse(filepath)))
      && Name(ema) == Name(raw) + "_ema"
  {
    var p := Parse(filepath);
    assert Parent(p).parts + [Stem(Name(p))] == Parent(p).parts + [Stem(Name(p))];
    assert (Parent(p).parts + [Stem(Name(p))])[..|Parent(p).parts|] == Parent(p).parts;
  }

  /**
   * When the file has no name (the path is a root, or empty) or its stem is
   * '.', the raw directory is the file's parent directory itself.
   */
  lemma RawDirectoryCollapses(filepath: string)
    requires !OrdinaryStem(filepath)
    ensures CheckpointDirectories(filepath).0 == Parent(Parse(filepath))
  {
  }

  /** A string without separator is one piece. */
  lemma {:induction false} SplitNoSlash(s: string)
    requires '/' !in s
    ensures SplitSlash(s) == [s]
  {
    if s != [] {
      SplitNoSlash(s[1..]);
      assert [s[0]] + s[1..] == s;
    }
  }

  /** Splitting at the first separator. */
  lemma {:induction false} SplitAtFirst(a: string, b: string)
    requires '/' !in a
    ensures SplitSlash(a + "/" + b) == [a] + SplitSlash(b)
  {
    if a == [] {
      assert a + "/" + b == "/" + b;
      assert ("/" + b)[1..] == b;
    } else {
      var s := a + "/" + b;
      assert s[0] == a[0] && s[1..] == a[1..] + "/" + b;
      SplitAtFirst(a[1..], b);
      assert [a[0]] + a[1..] == a;
    }
  }

  /** The parse of "/x/y/z" for three components. */
  lemma ParseThree(x: string, y: string, z: string)
    requires IsPart(x) && IsPart(y) && IsPart(z)
    ensures Parse("/" + x + "/" + y + "/" + z) == Path("/", [x, y, z])
  {
    var s := "/" + x + "/" + y + "/" + z;
    SplitThree(x, y, z);
    KeepThree(x, y, z);
    assert s[0] == '/' && s[1] == x[0] && x[0] != '/';
  }

  lemma SplitThree(x: string, y: string, z: string)
    requires IsPart(x) && IsPart(y) && IsPart(z)
    ensures SplitSlash("/" + x + "/" + y + "/" + z) == ["", x, y, z]
  {
    var yz := y + "/" + z;
    var xyz := x + "/" + yz;
    SplitNoSlash(z);
    SplitAtFirst(y, z);
    SplitAtFirst(x, yz);
    SplitAtFirst("", xyz);
    assert "" + "/" + xyz == "/" + x + "/" + y + "/" + z;
  }

  lemma KeepThree(x: string, y: string, z: string)
    requires IsPart(x) && IsPart(y) && IsPart(z)
    ensures Components(["", x, y, z]) == [x, y, z]
  {
    assert ["", x, y, z][1..] == [x, y, z];
    assert [x, y, z][1..] == [y, z];
    assert [y, z][1..] == [z];
    assert [z][1..] == [];
    assert Components([z]) == [z];
    assert Components([y, z]) == [y] + [z];
    assert Components([x, y, z]) == [x] + [y, z];
  }

  /** The stem of "z.e" for a non-empty z and a dotless, non-empty e. */
  lemma StemOfDotted(z: string, e: string)
    requires z != "" && e != "" && '.' !in e
    ensures Stem(z + "." + e) == z
  {
    RFindLastDot(z, e);
    assert (z + "." + e)[..|z|] == z;
  }

  /**
   * The layout of a checkpoint file "/x/y/z.e": the directories "/x/y/z"
   * and "/x/y/z_ema", the suffix dropped.
   */
  lemma DirectoriesOfFile(x: string, y: string, z: string, e: string)
    requires IsPart(x) && IsPart(y) && IsPart(z) && IsPart(e) && '.' !in e
    ensures CheckpointDirectories("/" + x + "/" + y + "/" + z + "." + e)
         == (Path("/", [x, y, z]), Path("/", [x, y, z + "_ema"]))
  {
    var name := z + "." + e;
    assert IsPart(name) by {
      assert name != "." by { assert |name| > 1; }
    }
    ParseThree(x, y, name);
    assert "/" + x + "/" + y + "/" + name == "/" + x + "/" + y + "/" + z + "." + e;
    var p := Parse("/" + x + "/" + y + "/" + z + "." + e);
    assert p == Path("/", [x, y, name]);
    assert Name(p) == name;
    assert Parent(p) == Path("/", [x, y]) by {
      assert [x, y, name][..2] == [x, y];
    }
    StemOfDotted(z, e);
    assert |z + "_ema"| > 1;
    assert [x, y] + [z] == [x, y, z];
    assert [x, y] + [z + "_ema"] == [x, y, z + "_ema"];
  }

  /** The layout of the checkpoint path "/a/b/ckpt.tmp". */
  lemma DirectoriesExample(s: string)
    requires s == "/a/b/ckpt.tmp"
    ensures CheckpointDirectories(s) == (Path("/", ["a", "b", "ckpt"]), Path("/", ["a", "b", "ckpt_ema"]))
  {
    ExampleSpelling(s);
    DirectoriesOfFile("a", "b", "ckpt", "tmp");
  }

  lemma ExampleSpelling(s: string)
    requires s == "/a/b/ckpt.tmp"
    ensures "/" + "a" + "/" + "b" + "/" + "ckpt" + "." + "tmp" == s
    ensures "ckpt" + "_ema" == "ckpt_ema"
  {
  }

  /**
   * Which checkpoints share a directory: for ordinary stems, the pairs of
   * two files overlap exactly when the files sit in the same directory and
   * their stems are equal or one is the other followed by "_ema".
   */
  lemma PairsOverlap(f: string, g: string)
    requires OrdinaryStem(f) && OrdinaryStem(g)
    ensures var (rf, ef) := CheckpointDirectories(f);
      var (rg, eg) := CheckpointDirectories(g);
      var sf, sg := Stem(Name(Parse(f))), Stem(Name(Parse(g)));
      (rf == rg || rf == eg || ef == rg || ef == eg)
        <==> Parent(Parse(f)) == Parent(Parse(g)) && (sf == sg || sf == sg + "_ema" || sg == sf + "_ema")
  {
    var (rf, ef) := CheckpointDirectories(f);
    var (rg, eg) := CheckpointDirectories(g);
    var pf, pg := Parent(Parse(f)), Parent(Parse(g));
    var sf, sg := Stem(Name(Parse(f))), Stem(Name(Parse(g)));
    SameLast(pf, sf, pg, sg);
    SameLast(pf, sf, pg, sg + "_ema");
    SameLast(pf, sf + "_ema", pg, sg);
    SameLast(pf, sf + "_ema", pg, sg + "_ema");
    if sf + "_ema" == sg + "_ema" {
      assert sf == (sf + "_ema")[..|sf|];
      assert sg == (sg + "_ema")[..|sg|];
    }
  }

  lemma SameLast(p: Path, a: string, q: Path, b: string)
    requires IsPart(a) && IsPart(b)
    ensures JoinName(p, a) == JoinName(q, b) <==> p == q && a == b
  {
    if JoinName(p, a) == JoinName(q, b) {
      var x, y := p.parts + [a], q.parts + [b];
      assert x == y;
      assert p.parts == x[..|x| - 1] && q.parts == y[..|y| - 1];
    }
  }

  /**
   * An instance: the raw directory of "d/x_ema.ckpt" is the EMA directory
   * of "d/x.ckpt".
   */
  lemma OverlapExample(f: string, g: string)
    requires f == "d/x_ema.ckpt" && g == "d/x.ckpt"
    ensures CheckpointDirectories(f).0 == CheckpointDirectories(g).1
  {
    OverlapSpelling(f, g);
    ParseTwo("d", "x_ema.ckpt");
    ParseTwo("d", "x.ckpt");
    StemOfDotted("x_ema", "ckpt");
    StemOfDotted("x", "ckpt");
  }

  lemma OverlapSpelling(f: string, g: string)
    requires f == "d/x_ema.ckpt" && g == "d/x.ckpt"
    ensures "d" + "/" + "x_ema.ckpt" == f && "d" + "/" + "x.ckpt" == g
    ensures "x_ema" + "." + "ckpt" == "x_ema.ckpt" && "x" + "." + "ckpt" == "x.ckpt"
    ensures "x" + "_ema" == "x_ema"
  {
  }

  /** The parse of the relative path "x/y". */
  lemma ParseTwo(x: string, y: string)
    requires IsPart(x) && IsPart(y)
    ensures Parse(x + "/" + y) == Path("", [x, y])
  {
    SplitNoSlash(y);
    SplitAtFirst(x, y);
    assert Components([x, y]) == [x, y] by {
      assert [x, y][1..] == [y];
      assert [y][1..] == [];
    }
  }
}
