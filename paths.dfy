/** The location path of the page and how the room id is read from it
    (`location.pathname.split("/")[3]`). */
module Paths {
  import opened Wrappers

  /** String.prototype.split with a one-character separator: the pieces
      between consecutive separators, always at least one. */
  function Split(s: string, sep: char): (parts: seq<string>)
    ensures |parts| >= 1
    ensures forall i :: 0 <= i < |parts| ==> sep !in parts[i]
    decreases |s|
  {
    if s == [] then [""]
    else
      var rest := Split(s[1..], sep);
      if s[0] == sep then [""] + rest
      else [[s[0]] + rest[0]] + rest[1..]
  }

  /** Array.prototype.join with a one-character separator. */
  function Join(parts: seq<string>, sep: char): string
    requires |parts| >= 1
    decreases |parts|
  {
    if |parts| == 1 then parts[0] else parts[0] + [sep] + Join(parts[1..], sep)
  }

  /** Number of occurrences of `c` in `s`. */
  function Count(s: string, c: char): nat
    decreases |s|
  {
    if s == [] then 0 else (if s[0] == c then 1 else 0) + Count(s[1..], c)
  }

  /** Splitting yields one more piece than there are separators. */
  lemma {:induction false} SplitLength(s: string, sep: char)
    ensures |Split(s, sep)| == Count(s, sep) + 1
    decreases |s|
  {
    if s != [] {
      SplitLength(s[1..], sep);
    }
  }

  /** Joining the pieces back with the separator gives the original string. */
  lemma {:induction false} JoinSplit(s: string, sep: char)
    ensures Join(Split(s, sep), sep) == s
    decreases |s|
  {
    if s != [] {
      var rest := Split(s[1..], sep);
      JoinSplit(s[1..], sep);
      if s[0] == sep {
        assert Split(s, sep)[1..] == rest;
        assert s == [sep] + s[1..];
      } else {
        var parts := Split(s, sep);
        if |rest| == 1 {
          assert s == [s[0]] + s[1..];
        } else {
          assert parts[1..] == rest[1..];
          assert Join(rest, sep) == rest[0] + [sep] + Join(rest[1..], sep);
          assert s == [s[0]] + s[1..];
        }
      }
    }
  }

  /** A string without the separator is a single piece. */
  lemma {:induction false} SplitNoSep(w: string, sep: char)
    requires sep !in w
    ensures Split(w, sep) == [w]
    decreases |w|
  {
    if w != [] {
      assert w[0] in w;
      assert forall c :: c in w[1..] ==> c in w;
      SplitNoSep(w[1..], sep);
      assert [w[0]] + w[1..] == w;
    }
  }

  /** A separator between two strings separates their pieces. */
  lemma {:induction false} SplitConcat(x: string, y: string, sep: char)
    ensures Split(x + [sep] + y, sep) == Split(x, sep) + Split(y, sep)
    decreases |x|
  {
    if x == [] {
      assert x + [sep] + y == [sep] + y;
      assert ([sep] + y)[1..] == y;
    } else {
      var s := x + [sep] + y;
      assert s[0] == x[0];
      assert s[1..] == x[1..] + [sep] + y;
      SplitConcat(x[1..], y, sep);
    }
  }

  /** The room id: the piece at index 3 of the path split on '/', or
      `undefined` when the path has fewer than four pieces. */
  function RoomId(pathname: string): (id: Option<string>)
    ensures id.Some? <==> Count(pathname, '/') >= 3
    ensures id.Some? ==> '/' !in id.value
  {
    SplitLength(pathname, '/');
    var parts := Split(pathname, '/');
    if |parts| > 3 then Some(parts[3]) else None
  }

  /** A separator-free prefix followed by the separator is one piece. */
  lemma PieceThenRest(w: string, y: string, sep: char)
    requires sep !in w
    ensures Split(w + [sep] + y, sep) == [w] + Split(y, sep)
  {
    SplitNoSep(w, sep);
    SplitConcat(w, y, sep);
  }

  /** The pieces of `/a/b/rest` are "", `a`, `b` and the pieces of `rest`. */
  lemma LeadingSegments(a: string, b: string, rest: string)
    requires '/' !in a && '/' !in b
    ensures Split("/" + a + "/" + b + "/" + rest, '/') == [[], a, b] + Split(rest, '/')
  {
    var s2 := b + ['/'] + rest;
    PieceThenRest(b, rest, '/');
    var s1 := a + ['/'] + s2;
    PieceThenRest(a, s2, '/');
    PieceThenRest([], s1, '/');
    assert "/" + a + "/" + b + "/" + rest == [] + ['/'] + s1;
  }

  /** A path `/a/b/id`, possibly followed by further segments, names room
      `id`; e.g. `/dashboard/rooms/abc` gives `abc`. */
  lemma RoomIdOfPath(a: string, b: string, id: string, tail: string)
    requires '/' !in a && '/' !in b && '/' !in id
    requires tail == [] || tail[0] == '/'
    ensures RoomId("/" + a + "/" + b + "/" + id + tail) == Some(id)
  {
    var rest := id + tail;
    if tail == [] {
      assert rest == id;
      SplitNoSep(id, '/');
    } else {
      assert rest == id + ['/'] + tail[1..];
      PieceThenRest(id, tail[1..], '/');
    }
    assert Split(rest, '/')[0] == id;
    LeadingSegments(a, b, rest);
    assert "/" + a + "/" + b + "/" + id + tail == "/" + a + "/" + b + "/" + rest;
  }

  /** The room id is undefined exactly when the path has fewer than three
      '/' characters; e.g. `/admin/rooms` has none. */
  lemma RoomIdOfShortPath(a: string, b: string)
    requires '/' !in a && '/' !in b
    ensures RoomId("/" + a + "/" + b) == None
  {
    var p := "/" + a + "/" + b;
    SplitNoSep(a, '/');
    SplitNoSep(b, '/');
    SplitConcat(a, b, '/');
    assert a + "/" + b == a + ['/'] + b;
    SplitConcat("", a + "/" + b, '/');
    assert p == "" + ['/'] + (a + "/" + b);
    SplitNoSep("", '/');
    assert Split(p, '/') == ["", a, b];
  }
}
