/** Cutting a byte string at a separator, and putting it together again. */
module Splitting {
  import opened Bytes

  /** What lies between the separators; a string without one is a single part. */
  function Split(s: Bytes, sep: byte): (parts: seq<Bytes>)
    ensures |parts| >= 1
  {
    if s == [] then [[]]
    else
      var front, last := Split(s[..|s| - 1], sep), s[|s| - 1];
      if last == sep then front + [[]] else Extend(front, [last])
  }

  /** More text in the last part. */
  function Extend(parts: seq<Bytes>, t: Bytes): (r: seq<Bytes>)
    requires |parts| >= 1
    ensures |r| == |parts|
  {
    parts[..|parts| - 1] + [parts[|parts| - 1] + t]
  }

  lemma ExtendLaws(parts: seq<Bytes>, t: Bytes, u: Bytes)
    requires |parts| >= 1
    ensures Extend(parts, []) == parts
    ensures Extend(Extend(parts, t), u) == Extend(parts, t + u)
    ensures Extend(parts + [[]], t) == parts + [t]
    ensures Extend([[]], t) == [t]
  {
    assert parts[|parts| - 1] + [] == parts[|parts| - 1];
    assert parts[|parts| - 1] + t + u == parts[|parts| - 1] + (t + u);
    assert [] + t == t;
    assert (parts + [[]])[..|parts|] == parts;
  }

  function Join(parts: seq<Bytes>, sep: byte): Bytes
    requires |parts| >= 1
  {
    if |parts| == 1 then parts[0] else Join(parts[..|parts| - 1], sep) + [sep] + parts[|parts| - 1]
  }

  lemma SplitStep(s: Bytes, b: byte, sep: byte)
    ensures var before := Split(s, sep);
      Split(s + [b], sep) == if b == sep then before + [[]] else Extend(before, [b])
  {
    assert (s + [b])[..|s|] == s;
  }

  lemma JoinStep(front: seq<Bytes>, b: byte, sep: byte)
    requires |front| >= 1
    ensures Join(if b == sep then front + [[]] else Extend(front, [b]), sep)
      == Join(front, sep) + [b]
  {
    if b == sep {
      assert (front + [[]])[..|front|] == front;
    } else {
      var grown := front[..|front| - 1] + [front[|front| - 1] + [b]];
      assert grown[..|grown| - 1] == front[..|front| - 1];
    }
  }

  /** Joining what was split gives the string back. */
  lemma {:induction false} JoinSplit(s: Bytes, sep: byte)
    ensures Join(Split(s, sep), sep) == s
  {
    if s != [] {
      var prior := s[..|s| - 1];
      JoinSplit(prior, sep);
      JoinStep(Split(prior, sep), s[|s| - 1], sep);
      assert s == prior + [s[|s| - 1]];
    }
  }

  /** Text without a separator extends the last part. */
  lemma {:induction false} SplitPlain(s: Bytes, t: Bytes, sep: byte)
    requires sep !in t
    ensures Split(s + t, sep) == Extend(Split(s, sep), t)
  {
    hide Split, Extend;
    if t == [] {
      assert s + t == s;
      ExtendLaws(Split(s, sep), [], []);
    } else {
      var front, b := t[..|t| - 1], t[|t| - 1];
      assert sep !in front;
      SplitPlain(s, front, sep);
      SplitStep(s + front, b, sep);
      assert s + t == s + front + [b];
      assert front + [b] == t;
      ExtendLaws(Split(s, sep), front, [b]);
    }
  }

  /** Splitting what was joined gives the parts back, when no part holds the separator. */
  lemma {:induction false} SplitJoin(parts: seq<Bytes>, sep: byte)
    requires |parts| >= 1 && forall i :: 0 <= i < |parts| ==> sep !in parts[i]
    ensures Split(Join(parts, sep), sep) == parts
  {
    hide Extend;
    var last := parts[|parts| - 1];
    if |parts| == 1 {
      SplitPlain([], last, sep);
      assert [] + last == last;
      ExtendLaws([[]], last, []);
      assert parts == [last];
    } else {
      hide Split;
      var front := parts[..|parts| - 1];
      SplitJoin(front, sep);
      var s := Join(front, sep);
      SplitStep(s, sep, sep);
      SplitPlain(s + [sep], last, sep);
      ExtendLaws(front, last, []);
      assert front + [last] == parts;
    }
  }
}
