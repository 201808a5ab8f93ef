/**
 * The part of POSIX `pathlib` the environment layout relies on: joining a
 * string onto a path (`p / s`), `parent`, `name` and `as_posix()`.
 * Normalisation by the environments' path helper is taken to be the identity.
 */
module Paths {

  /** A path as `pathlib` stores it: anchored at `/` or not, and its components. */
  datatype Path = Path(absolute: bool, parts: seq<string>)

  /** A component `pathlib` keeps after parsing: not empty, not `.`, no separator. */
  predicate IsComponent(c: string) {
    c != "" && c != "." && '/' !in c
  }

  /** Every component of `p` is one `pathlib` could have produced. */
  predicate WellFormed(p: Path) {
    forall i :: 0 <= i < |p.parts| ==> IsComponent(p.parts[i])
  }

  /** `pathlib` drops empty components and `.` while parsing. */
  function Keep(c: string): seq<string> {
    if c == "" || c == "." then [] else [c]
  }

  /** The components of `s` split on `/`, `cur` being the component read so far. */
  function Components(s: string, cur: string): seq<string>
    decreases |s|
  {
    if s == [] then Keep(cur)
    else if s[0] == '/' then Keep(cur) + Components(s[1..], "")
    else Components(s[1..], cur + [s[0]])
  }

  /**
   * `p / s`: a string starting with `/` replaces `p` by an absolute path,
   * anything else extends `p`; joining keeps a path well formed.
   */
  function Join(p: Path, s: string): (r: Path)
    ensures |s| > 0 && s[0] == '/' ==> r.absolute
    ensures (|s| == 0 || s[0] != '/') ==> r.absolute == p.absolute
    ensures (|s| == 0 || s[0] != '/') ==> p.parts <= r.parts
    ensures WellFormed(p) ==> WellFormed(r)
  {
    ComponentsAreComponents(s, "");
    var cs := Components(s, "");
    assert forall i :: 0 <= i < |cs| ==> cs[i] in cs;
    if |s| > 0 && s[0] == '/' then Path(true, cs)
    else Path(p.absolute, p.parts + cs)
  }

  /**
   * `p.parent`: `p` less its last component, same anchor; the anchor and the
   * empty relative path are their own parent.
   */
  function Parent(p: Path): (r: Path)
    ensures r.absolute == p.absolute && r.parts <= p.parts
    ensures p.parts != [] ==> |r.parts| == |p.parts| - 1
    ensures p.parts == [] ==> r == p
  {
    if p.parts == [] then p else Path(p.absolute, p.parts[..|p.parts| - 1])
  }

  /**
   * `p.name`: empty exactly when there is no component; otherwise putting it
   * back under `p.parent` gives `p`.
   */
  function Name(p: Path): (r: string)
    ensures p.parts != [] ==> Path(p.absolute, Parent(p).parts + [r]) == p
    ensures WellFormed(p) ==> (r == "" <==> p.parts == [])
    ensures WellFormed(p) ==> '/' !in r
  {
    if p.parts == [] then ""
    else
      var r := p.parts[|p.parts| - 1];
      assert Parent(p).parts + [r] == p.parts;
      assert IsComponent(p.parts[|p.parts| - 1]) <== WellFormed(p);
      r
  }

  /** `p` together with every directory above it. */
  function Ancestors(p: Path): set<Path> {
    set i | 0 <= i <= |p.parts| :: Path(p.absolute, p.parts[..i])
  }

  function JoinParts(parts: seq<string>): string {
    if parts == [] then ""
    else if |parts| == 1 then parts[0]
    else parts[0] + "/" + JoinParts(parts[1..])
  }

  /** `p.as_posix()`: for a well-formed path, never empty, and starting with `/` exactly when `p` is absolute. */
  function AsPosix(p: Path): (r: string)
    ensures p.absolute ==> r != "" && r[0] == '/'
    ensures WellFormed(p) ==> r != "" && (r[0] == '/' <==> p.absolute)
  {
    if p.absolute then "/" + JoinParts(p.parts)
    else if p.parts == [] then "."
    else
      assert WellFormed(p) ==> JoinParts(p.parts) != "" && JoinParts(p.parts)[0] != '/' by {
        if WellFormed(p) {
          JoinPartsStart(p.parts);
          assert p.parts[0][0] in p.parts[0];
        }
      }
      JoinParts(p.parts)
  }

  lemma {:induction false} ComponentsWithoutSeparator(s: string, cur: string)
    requires '/' !in s
    ensures Components(s, cur) == Keep(cur + s)
    decreases |s|
  {
    if s != [] {
      assert s[0] in s;
      assert forall c :: c in s[1..] ==> c in s;
      assert s[0] != '/';
      ComponentsWithoutSeparator(s[1..], cur + [s[0]]);
      assert cur + [s[0]] + s[1..] == cur + s;
    } else {
      assert cur + s == cur;
    }
  }

  /** Splitting `x/y` gives the component `x` followed by the components of `y`. */
  lemma {:induction false} ComponentsAtSeparator(x: string, y: string, cur: string)
    requires '/' !in x
    ensures Components(x + "/" + y, cur) == Keep(cur + x) + Components(y, "")
    decreases |x|
  {
    if x == [] {
      assert x + "/" + y == ['/'] + y;
      assert (['/'] + y)[1..] == y;
      assert cur + x == cur;
    } else {
      assert x[0] in x;
      assert forall c :: c in x[1..] ==> c in x;
      assert (x + "/" + y)[0] == x[0] && x[0] != '/';
      assert (x + "/" + y)[1..] == x[1..] + "/" + y;
      ComponentsAtSeparator(x[1..], y, cur + [x[0]]);
      assert cur + [x[0]] + x[1..] == cur + x;
    }
  }

  /** Parsing never yields a component `pathlib` would have dropped. */
  lemma {:induction false} ComponentsAreComponents(s: string, cur: string)
    requires '/' !in cur
    ensures forall c :: c in Components(s, cur) ==> IsComponent(c)
    decreases |s|
  {
    if s != [] {
      if s[0] == '/' {
        ComponentsAreComponents(s[1..], "");
      } else {
        assert forall c :: c in cur + [s[0]] ==> c in cur || c == s[0];
        ComponentsAreComponents(s[1..], cur + [s[0]]);
      }
    }
  }

  /** Joining a single component appends it: the result's parent is `p`, its name `c`. */
  lemma JoinComponent(p: Path, c: string)
    requires IsComponent(c)
    ensures Join(p, c) == Path(p.absolute, p.parts + [c])
    ensures Parent(Join(p, c)) == p && Name(Join(p, c)) == c
  {
    ComponentsWithoutSeparator(c, "");
    assert "" + c == c;
    assert (p.parts + [c])[..|p.parts|] == p.parts;
  }

  /** The components of a `/`-joined list of components are that list. */
  lemma {:induction false} ComponentsOfJoinParts(parts: seq<string>)
    requires forall i :: 0 <= i < |parts| ==> IsComponent(parts[i])
    ensures Components(JoinParts(parts), "") == parts
    decreases |parts|
  {
    if |parts| == 1 {
      ComponentsWithoutSeparator(parts[0], "");
      assert "" + parts[0] == parts[0];
    } else if |parts| > 1 {
      ComponentsAtSeparator(parts[0], JoinParts(parts[1..]), "");
      assert "" + parts[0] == parts[0];
      ComponentsOfJoinParts(parts[1..]);
    }
  }

  /**
   * `as_posix()` loses nothing: parsing it back as the right-hand side of a
   * join gives the path again, whatever it is joined onto.
   */
  lemma AsPosixRoundTrip(p: Path, base: Path)
    requires WellFormed(p)
    ensures p.absolute ==> Join(base, AsPosix(p)) == p
    ensures !p.absolute ==> Join(base, AsPosix(p)) == Path(base.absolute, base.parts + p.parts)
  {
    if p.absolute {
      var t := JoinParts(p.parts);
      ComponentsOfJoinParts(p.parts);
      ComponentsAtSeparator("", t, "");
      assert "" + "/" + t == "/" + t;
    } else if p.parts == [] {
      assert Components(".", "") == [] by {
        ComponentsWithoutSeparator(".", "");
        assert "" + "." == ".";
      }
    } else {
      ComponentsOfJoinParts(p.parts);
      JoinPartsStart(p.parts);
    }
  }

  lemma JoinPartsStart(parts: seq<string>)
    requires parts != [] && IsComponent(parts[0])
    ensures |JoinParts(parts)| > 0 && JoinParts(parts)[0] == parts[0][0]
  {
    assert parts[0][0] in parts[0];
  }

  /** `p` itself and the directory containing it are among its ancestors. */
  lemma AncestorsOf(p: Path)
    ensures p in Ancestors(p)
    ensures Parent(p) in Ancestors(p)
  {
    assert p.parts[..|p.parts|] == p.parts;
    if p.parts != [] {
      assert Parent(p) == Path(p.absolute, p.parts[..|p.parts| - 1]);
    }
  }

  /** The ancestors of `p / c` are `p / c` itself and the ancestors of `p`. */
  lemma AncestorsOfJoin(p: Path, c: string)
    requires IsComponent(c)
    ensures Ancestors(Join(p, c)) == Ancestors(p) + {Join(p, c)}
  {
    JoinComponent(p, c);
    var q := Join(p, c);
    forall a | a in Ancestors(p) ensures a in Ancestors(q) {
      var i :| 0 <= i <= |p.parts| && a == Path(p.absolute, p.parts[..i]);
      assert q.parts[..i] == p.parts[..i];
    }
    forall a | a in Ancestors(q) ensures a in Ancestors(p) + {q} {
      var i :| 0 <= i <= |q.parts| && a == Path(q.absolute, q.parts[..i]);
      if i <= |p.parts| {
        assert q.parts[..i] == p.parts[..i];
      } else {
        assert q.parts[..i] == q.parts;
      }
    }
    AncestorsOf(q);
  }

  /** An ancestor's ancestors are ancestors. */
  lemma AncestorsTransitive(p: Path, q: Path)
    requires q in Ancestors(p)
    ensures Ancestors(q) <= Ancestors(p)
  {
    var i :| 0 <= i <= |p.parts| && q == Path(p.absolute, p.parts[..i]);
    forall a | a in Ancestors(q) ensures a in Ancestors(p) {
      var j :| 0 <= j <= |q.parts| && a == Path(q.absolute, q.parts[..j]);
      assert q.parts[..j] == p.parts[..j];
    }
  }
}
