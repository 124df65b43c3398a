/**
 * The part of `pathlib.PurePosixPath` that `GuardrailsConfig` relies on: building a
 * path from a string and turning it back into one. Parsing normalises the text
 * (repeated slashes and "." components vanish, a trailing slash is dropped), so
 * `str(Path(s))` need not be `s`, but `Path(str(p))` is always `p`.
 */
module PurePath {
  import PyText

  /** A parsed POSIX path: its root ("", "/" or, kept as POSIX allows, "//") and
      its components. */
  datatype Path = Path(root: string, parts: seq<string>)

  /** A component as parsing produces it: non-empty, not ".", without a slash. */
  predicate IsPart(p: string) {
    p != [] && p != "." && '/' !in p
  }

  predicate Valid(p: Path) {
    && p.root in {"", "/", "//"}
    && forall i :: 0 <= i < |p.parts| ==> IsPart(p.parts[i])
  }

  /** `s.split("/")`: always at least one piece, none holding a slash. */
  function Split(s: string): (r: seq<string>)
    ensures |r| >= 1
    ensures forall i :: 0 <= i < |r| ==> '/' !in r[i]
  {
    if s == [] then [""]
    else
      var rest := Split(s[1..]);
      if s[0] == '/' then [""] + rest else [[s[0]] + rest[0]] + rest[1..]
  }

  /** The pieces that survive parsing: empty and "." pieces are dropped. */
  function Keep(pieces: seq<string>): (r: seq<string>)
    requires forall i :: 0 <= i < |pieces| ==> '/' !in pieces[i]
    ensures forall i :: 0 <= i < |r| ==> IsPart(r[i])
  {
    if pieces == [] then []
    else if pieces[0] == [] || pieces[0] == "." then Keep(pieces[1..])
    else [pieces[0]] + Keep(pieces[1..])
  }

  /** `"/".join(parts)` */
  function Join(parts: seq<string>): string {
    if parts == [] then ""
    else if |parts| == 1 then parts[0]
    else parts[0] + "/" + Join(parts[1..])
  }

  /** `PurePosixPath(s)`: two leading slashes (and not three) form the root "//",
      one or more otherwise form "/". */
  function Parse(s: string): (p: Path)
    ensures Valid(p)
  {
    Path(RootOf(s), Keep(Split(PyText.LStrip(s, PyText.IsSlash))))
  }

  function RootOf(s: string): string {
    if |s| >= 2 && s[0] == '/' && s[1] == '/' && !(|s| >= 3 && s[2] == '/') then "//"
    else if |s| >= 1 && s[0] == '/' then "/"
    else ""
  }

  /** `str(p)`: "." for the empty relative path. */
  function Str(p: Path): string {
    if p.root == "" && p.parts == [] then "." else p.root + Join(p.parts)
  }

  lemma {:induction false} SplitAfterPart(p: string, t: string)
    requires '/' !in p
    ensures Split(p + "/" + t) == [p] + Split(t)
    decreases |p|
  {
    var s := p + "/" + t;
    if p == [] {
      assert s[0] == '/' && s[1..] == t;
    } else {
      assert p[0] in p;
      assert s[0] == p[0] && s[1..] == p[1..] + "/" + t;
      SplitAfterPart(p[1..], t);
      assert [p[0]] + p[1..] == p;
    }
  }

  lemma {:induction false} SplitPart(p: string)
    requires '/' !in p
    ensures Split(p) == [p]
    decreases |p|
  {
    if p != [] {
      assert p[0] in p;
      SplitPart(p[1..]);
      assert [p[0]] + p[1..] == p;
    }
  }

  /** Splitting joined components gives them back. */
  lemma {:induction false} SplitJoin(parts: seq<string>)
    requires forall i :: 0 <= i < |parts| ==> IsPart(parts[i])
    ensures Keep(Split(Join(parts))) == parts
    decreases |parts|
  {
    if parts == [] {
    } else if |parts| == 1 {
      SplitPart(parts[0]);
    } else {
      SplitAfterPart(parts[0], Join(parts[1..]));
      SplitJoin(parts[1..]);
    }
  }

  lemma JoinHead(parts: seq<string>)
    requires forall i :: 0 <= i < |parts| ==> IsPart(parts[i])
    ensures parts != [] ==> IsPart(parts[0]) && Join(parts) != [] && Join(parts)[0] == parts[0][0] != '/'
  {
    if parts != [] {
      assert IsPart(parts[0]);
      assert parts[0][0] in parts[0];
    }
  }

  lemma ParseDot()
    ensures Parse(".") == Path("", [])
  {
    SplitPart(".");
    assert PyText.LStrip(".", PyText.IsSlash) == ".";
    assert Keep(["."]) == [];
  }

  /** Stripping the leading slashes of a root followed by text that does not start
      with a slash leaves the text. */
  lemma StripRoot(k: nat, j: string)
    requires j == [] || j[0] != '/'
    ensures PyText.LStrip(PyText.Slashes(k) + j, PyText.IsSlash) == j
  {
    PyText.LStripPadding(j, k);
  }

  /** ... and the root is read back. */
  lemma RootOfRoot(root: string, j: string)
    requires root == "" || root == "/" || root == "//"
    requires j == [] || j[0] != '/'
    requires root == "" ==> j != []
    ensures RootOf(root + j) == root
  {
    var s := root + j;
    if root == "//" {
      assert s[0] == '/' && s[1] == '/';
      assert |s| >= 3 ==> s[2] == j[0];
    } else if root == "/" {
      assert s[0] == '/';
      assert |s| >= 2 ==> s[1] == j[0];
    } else {
      assert s == j;
    }
  }

  /** The path written out parses back to itself. */
  lemma ParseStr(p: Path)
    requires Valid(p)
    ensures Parse(Str(p)) == p
  {
    if p.root == "" && p.parts == [] {
      ParseDot();
    } else {
      JoinHead(p.parts);
      assert p.root == PyText.Slashes(|p.root|);
      StripRoot(|p.root|, Join(p.parts));
      RootOfRoot(p.root, Join(p.parts));
      SplitJoin(p.parts);
    }
  }

  /** Normalisation settles after one round: `str(Path(str(Path(s)))) == str(Path(s))`. */
  lemma NormaliseIdempotent(s: string)
    ensures Str(Parse(Str(Parse(s)))) == Str(Parse(s))
  {
    ParseStr(Parse(s));
  }
}
