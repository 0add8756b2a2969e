/**
 * The path arithmetic shared by the resource registry and the state-change
 * registry of service.py: the ancestor-or-equal test, the relative segments
 * of a descendant, `expand` (nest a payload under segments, used by
 * state-change notification) and the descent of `set_resource` into a
 * nested payload.
 */
module Paths {
  import opened Values
  import opened Strings

  type Path = string

  /** The ancestor-or-equal test: `p` equals `anc`, `anc` is the root `/`,
      or `p` continues `anc` with a `/`. */
  predicate Covers(anc: Path, p: Path)
  {
    p == anc || anc == "/" || (StartsWith(p, anc) && |p| > |anc| && p[|anc|] == '/')
  }

  /** `p[n:]` under Python slicing: empty when `n` is past the end. */
  function Drop(p: string, n: nat): (r: string)
    ensures |r| == if n <= |p| then |p| - n else 0
  {
    if n <= |p| then p[n..] else ""
  }

  /** The non-empty `/`-separated pieces of `s`. */
  function Segments(s: string): seq<string>
  {
    NonEmpty(Split(s, '/'))
  }

  /** The segments of `p` below `anc`: `[x for x in p[len(anc):].split('/') if x]`. */
  function Rel(anc: Path, p: Path): seq<string>
  {
    Segments(Drop(p, |anc|))
  }

  /** `expand`: the payload `v` nested under `segs`, outermost first;
      `v` itself for no segments. */
  function Nest(segs: seq<string>, v: Value): Value
  {
    if segs == [] then v else Single(segs[0], Nest(segs[1..], v))
  }

  /** Python's `key in z`: key membership for a dictionary, substring
      search for a string, element membership for a list; other values are
      not iterable and raise `TypeError`. */
  function Member(z: Value, key: string): (r: Result<bool, PyError>)
    ensures r.Err? <==> !(z.VDict? || z.VStr? || z.VList?)
    ensures r.Err? ==> r.error == TypeError
    ensures z.VDict? ==> r == Ok(key in z.fields)
  {
    match z
    case VDict(m) => Ok(key in m)
    case VStr(s) => Ok(Contains(s, key))
    case VList(items) => Ok(VStr(key) in items)
    case _ => Err(TypeError)
  }

  /** The descent of `set_resource` into `data` along `segs`: at each
      segment `if i in z: z = z[i]`, otherwise the result is `None`.
      Membership on a scalar, and subscripting a string or a list, raise. */
  function Descend(z: Value, segs: seq<string>): Result<Option<Value>, PyError>
  {
    if segs == [] then Ok(Some(z))
    else
      match Member(z, segs[0])
      case Err(e) => Err(e)
      case Ok(has) =>
        if !has then Ok(None)
        else
          match Subscript(z, segs[0])
          case Err(e) => Err(e)
          case Ok(v) => Descend(v, segs[1..])
  }

  /** A string payload is never descended into: a segment it contains as a
      substring raises `TypeError`, any other segment gives `None`. */
  lemma DescendStringIsTypeError(s: string, seg: string, rest: seq<string>)
    ensures Descend(VStr(s), [seg] + rest) == (if Contains(s, seg) then Err(TypeError) else Ok(None))
  {
  }

  // ---------------------------------------------------------------- lemmas

  /** Descending along the segments a payload was nested under gives the
      payload back: `set_resource` inverts `expand`. */
  lemma {:induction false} DescendNest(segs: seq<string>, v: Value)
    ensures Descend(Nest(segs, v), segs) == Ok(Some(v))
    decreases |segs|
  {
    if segs != [] {
      DescendNest(segs[1..], v);
    }
  }

  /** A path has no segments below itself, so `expand` is the identity there. */
  lemma RelSelf(p: Path)
    ensures Covers(p, p)
    ensures Rel(p, p) == []
    ensures Nest(Rel(p, p), VNone) == VNone
  {
    assert Drop(p, |p|) == "";
    assert Split("", '/') == [""];
  }

  /** `/speech` is not an ancestor of `/speechless`: a bare string prefix is
      not enough. */
  lemma NoPrefixWithoutSlash()
    ensures !Covers("/speech", "/speechless")
    ensures Covers("/speech", "/speech/detector")
    ensures Covers("/", "/speechless")
  {
    assert "/speech/detector"[..7] == "/speech";
  }

  /** The relative segments are empty exactly when the remainder consists
      of separators only. */
  lemma {:induction false} SegmentsEmpty(s: string)
    ensures Segments(s) == [] <==> forall i :: 0 <= i < |s| ==> s[i] == '/'
    decreases |s|
  {
    if s != [] {
      SegmentsEmpty(s[1..]);
      var rest := Split(s[1..], '/');
      if s[0] == '/' {
        assert Split(s, '/') == [""] + rest;
        assert NonEmpty([""] + rest) == NonEmpty(rest);
        assert forall i :: 0 < i < |s| ==> s[i] == s[1..][i - 1];
      } else {
        var first := [s[0]] + rest[0];
        assert Split(s, '/') == [first] + rest[1..];
        assert NonEmpty([first] + rest[1..]) == [first] + NonEmpty(rest[1..]);
      }
    }
  }

  // ---------------------------------------------------------------- well-formed paths

  /** Segments that can make up a path: non-empty and free of `/`. */
  predicate WellFormed(segs: seq<string>)
  {
    forall i :: 0 <= i < |segs| ==> segs[i] != "" && '/' !in segs[i]
  }

  /** `/s1/s2/.../sn`, the empty string for no segments. */
  function Rooted(segs: seq<string>): string
  {
    if segs == [] then "" else "/" + segs[0] + Rooted(segs[1..])
  }

  /** The canonical path of a segment list; the root `/` for none. */
  function PathOf(segs: seq<string>): Path
  {
    if segs == [] then "/" else Rooted(segs)
  }

  lemma {:induction false} RootedAppend(a: seq<string>, c: seq<string>)
    ensures Rooted(a + c) == Rooted(a) + Rooted(c)
    decreases |a|
  {
    if a == [] {
      assert a + c == c;
    } else {
      RootedAppend(a[1..], c);
      assert (a + c)[1..] == a[1..] + c;
    }
  }

  lemma {:induction false} NonEmptyAppend(xs: seq<string>, ys: seq<string>)
    ensures NonEmpty(xs + ys) == NonEmpty(xs) + NonEmpty(ys)
    decreases |xs|
  {
    if xs == [] {
      assert xs + ys == ys;
    } else {
      NonEmptyAppend(xs[1..], ys);
      assert (xs + ys)[0] == xs[0] && (xs + ys)[1..] == xs[1..] + ys;
      if xs[0] != "" {
        Associative([xs[0]], NonEmpty(xs[1..]), NonEmpty(ys));
      }
    }
  }

  lemma {:induction false} NonEmptyKeeps(xs: seq<string>)
    requires forall i :: 0 <= i < |xs| ==> xs[i] != ""
    ensures NonEmpty(xs) == xs
    decreases |xs|
  {
    if xs != [] {
      NonEmptyKeeps(xs[1..]);
    }
  }

  /** A leading separator adds no segment. */
  lemma SegmentsSlash(w: string)
    ensures Segments("/" + w) == Segments(w)
  {
    assert ("/" + w)[1..] == w;
    assert Split("/" + w, '/') == [""] + Split(w, '/');
  }

  /** A separator-free word is one segment. */
  lemma SegmentsWord(w: string)
    requires w != "" && '/' !in w
    ensures Segments(w) == [w]
  {
    SplitWord(w, '/');
  }

  /** A separator-free word followed by a separator is the first segment. */
  lemma SegmentsWordThenSep(w: string, u: string)
    requires w != "" && '/' !in w
    ensures Segments(w + "/" + u) == [w] + Segments(u)
  {
    SplitWordThenSep(w, '/', u);
  }

  lemma RootedStart(segs: seq<string>)
    ensures Rooted(segs) == [] <==> segs == []
    ensures segs != [] ==> Rooted(segs)[0] == '/'
  {
  }

  /** The segments of `/s1/.../sn` followed by an empty or `/`-led tail are
      the `si` followed by the segments of the tail. */
  lemma {:induction false} SegmentsRooted(segs: seq<string>, tail: string)
    requires WellFormed(segs)
    requires tail == [] || tail[0] == '/'
    ensures Segments(Rooted(segs) + tail) == segs + Segments(tail)
    decreases |segs|
  {
    if segs == [] {
      assert Rooted(segs) + tail == tail;
    } else {
      var w := segs[0];
      var rest := Rooted(segs[1..]) + tail;
      assert WellFormed(segs[1..]) by {
        forall i | 0 <= i < |segs[1..]|
          ensures segs[1..][i] != "" && '/' !in segs[1..][i]
        {
          assert segs[1..][i] == segs[i + 1];
        }
      }
      assert rest == [] || rest[0] == '/' by {
        RootedStart(segs[1..]);
      }
      calc {
        Segments(Rooted(segs) + tail);
      == { assert Rooted(segs) + tail == "/" + (w + rest); }
        Segments("/" + (w + rest));
      == { SegmentsSlash(w + rest); }
        Segments(w + rest);
      == { SegmentsWordRest(w, rest); }
        [w] + Segments(rest);
      == { SegmentsRooted(segs[1..], tail); }
        [w] + (segs[1..] + Segments(tail));
      == { Associative([w], segs[1..], Segments(tail)); assert [w] + segs[1..] == segs; }
        segs + Segments(tail);
      }
    }
  }

  /** A word followed by nothing or by a separator is the first segment. */
  lemma SegmentsWordRest(w: string, rest: string)
    requires w != "" && '/' !in w
    requires rest == [] || rest[0] == '/'
    ensures Segments(w + rest) == [w] + Segments(rest)
  {
    if rest == [] {
      assert w + rest == w;
      SegmentsWord(w);
      assert Split("", '/') == [""];
    } else {
      SegmentsRootedStep(w, rest);
    }
  }

  lemma SegmentsRootedStep(w: string, rest: string)
    requires w != "" && '/' !in w
    requires rest != [] && rest[0] == '/'
    ensures Segments(w + rest) == [w] + Segments(rest)
  {
    var u := rest[1..];
    assert w + rest == w + "/" + u;
    SegmentsWordThenSep(w, u);
    assert rest == "/" + u;
    SegmentsSlash(u);
  }

  /** A canonical path decodes back to its segments. */
  lemma SegmentsOfPath(segs: seq<string>)
    requires WellFormed(segs)
    ensures Segments(PathOf(segs)) == segs
  {
    if segs == [] {
      assert Split("/", '/') == ["", ""];
    } else {
      SegmentsRooted(segs, "");
      assert Rooted(segs) + "" == Rooted(segs);
      assert Split("", '/') == [""];
    }
  }

  lemma RootedShape(segs: seq<string>)
    requires WellFormed(segs) && segs != []
    ensures |Rooted(segs)| >= 2 && Rooted(segs)[0] == '/'
  {
  }

  /** A segment-prefix path covers the longer one, and the relative
      segments are what the longer list adds. */
  lemma PrefixCovers(a: seq<string>, c: seq<string>)
    requires WellFormed(a) && WellFormed(c)
    ensures Covers(PathOf(a), PathOf(a + c))
    ensures Rel(PathOf(a), PathOf(a + c)) == c
  {
    var b := a + c;
    assert WellFormed(b);
    if a == [] {
      assert b == c;
      if b == [] {
        assert Drop("/", 1) == "";
        assert Split("", '/') == [""];
      } else {
        var d := Drop(PathOf(b), 1);
        assert PathOf(b) == "/" + d;
        SegmentsSlash(d);
        SegmentsOfPath(b);
      }
    } else {
      RootedAppend(a, c);
      RootedShape(a);
      assert PathOf(b) == Rooted(a) + Rooted(c);
      assert Drop(PathOf(b), |PathOf(a)|) == Rooted(c);
      SegmentsRooted(c, "");
      assert Rooted(c) + "" == Rooted(c);
      assert Split("", '/') == [""];
      if c != [] {
        RootedShape(c);
        assert PathOf(b)[..|Rooted(a)|] == Rooted(a);
        assert PathOf(b)[|Rooted(a)|] == Rooted(c)[0];
      }
    }
  }

  /** A canonical path covers another only when its segments are a prefix
      of the other's. */
  lemma CoversPrefix(a: seq<string>, b: seq<string>)
    requires WellFormed(a) && WellFormed(b)
    requires Covers(PathOf(a), PathOf(b))
    ensures a <= b
  {
    if a != [] {
      RootedShape(a);
      var pa := Rooted(a);
      var pb := PathOf(b);
      SegmentsOfPath(b);
      if pb == pa {
        SegmentsOfPath(a);
      } else {
        assert pa != "/";
        assert StartsWith(pb, pa) && |pb| > |pa| && pb[|pa|] == '/';
        var tail := pb[|pa|..];
        assert pb == pa + tail by {
          assert pb[..|pa|] == pa;
        }
        assert tail[0] == '/';
        SegmentsRooted(a, tail);
        assert b == a + Segments(tail);
      }
    }
  }

  /** For canonical paths the string-level ancestor test is exactly the
      segment-prefix order, and the relative segments are the remaining
      segments of the descendant. */
  lemma CoversIsSegmentPrefix(a: seq<string>, b: seq<string>)
    requires WellFormed(a) && WellFormed(b)
    ensures Covers(PathOf(a), PathOf(b)) <==> a <= b
    ensures a <= b ==> Rel(PathOf(a), PathOf(b)) == b[|a|..]
  {
    if a <= b {
      assert b == a + b[|a|..];
      PrefixCovers(a, b[|a|..]);
    } else if Covers(PathOf(a), PathOf(b)) {
      CoversPrefix(a, b);
    }
  }

  /** For canonical paths the relative segments are empty exactly for the
      path itself. */
  lemma RelEmptyIffSame(a: seq<string>, b: seq<string>)
    requires WellFormed(a) && WellFormed(b)
    requires Covers(PathOf(a), PathOf(b))
    ensures Rel(PathOf(a), PathOf(b)) == [] <==> a == b
  {
    CoversIsSegmentPrefix(a, b);
  }

  /** A key with a trailing separator also has no relative segments below
      the path without it, so it is treated like the path itself. */
  lemma TrailingSlashLikeSelf()
    ensures Covers("/a", "/a/") && Rel("/a", "/a/") == []
  {
    assert Drop("/a/", 2) == "/";
    assert Split("/", '/') == ["", ""] by {
      assert Split("", '/') == [""];
    }
  }

  /** A path extended by one separator-free segment is a child: covered,
      with that segment as its only relative segment. */
  lemma ChildPath(p: Path, x: string)
    requires x != "" && '/' !in x
    ensures Covers(p, p + "/" + x)
    ensures Rel(p, p + "/" + x) == [x]
  {
    var c := p + "/" + x;
    assert c[..|p|] == p;
    assert c[|p|] == '/';
    assert Drop(c, |p|) == "/" + x;
    SegmentsSlash(x);
    SegmentsWord(x);
  }
}
