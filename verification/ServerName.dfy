/** The DNS form a host_name must have: dot-separated labels of letters, digits and inner hyphens. */
module ServerName {
  import opened Bytes
  import opened Splitting

  const MAX_NAME := 253
  const MAX_LABEL := 63
  const DOT := 46
  const HYPHEN := 45

  predicate LabelByte(b: byte)
  {
    97 <= b <= 122 || 65 <= b <= 90 || 48 <= b <= 57 || b == 45
  }

  /** The alphabet of labels, in characters. */
  lemma LabelAlphabet(b: byte)
    ensures var c := b as char; LabelByte(b) <==> 'a' <= c <= 'z' || 'A' <= c <= 'Z' || '0' <= c <= '9' || c == '-'
  {
  }

  predicate ValidLabel(part: Bytes)
  {
    && 1 <= |part| <= 63
    && part[0] != 45 && part[|part| - 1] != 45
    && forall i :: 0 <= i < |part| ==> LabelByte(part[i])
  }

  /** The labels of a name: what lies between its dots. */
  function Labels(name: Bytes): (labels: seq<Bytes>)
    ensures |labels| >= 1
  {
    Split(name, 46)
  }

  predicate ValidName(name: Bytes)
  {
    1 <= |name| <= 253 && forall i :: 0 <= i < |Labels(name)| ==> ValidLabel(Labels(name)[i])
  }

  ghost function Last(labels: seq<Bytes>): Bytes
    requires |labels| >= 1
  {
    labels[|labels| - 1]
  }

  /** All labels but the one in progress are valid, and that one may still become valid. */
  ghost predicate Promising(labels: seq<Bytes>)
    requires |labels| >= 1
  {
    && (forall i :: 0 <= i < |labels| - 1 ==> ValidLabel(labels[i]))
    && |Last(labels)| <= MAX_LABEL
    && (Last(labels) != [] ==> Last(labels)[0] != HYPHEN)
    && (forall k :: 0 <= k < |Last(labels)| ==> LabelByte(Last(labels)[k]))
  }

  lemma LabelStep(name: Bytes, n: nat)
    requires n < |name|
    ensures var before, after := Labels(name[..n]), Labels(name[..n + 1]);
      after == if name[n] == DOT then before + [[]] else before[..|before| - 1] + [Last(before) + [name[n]]]
  {
    SplitStep(name[..n], name[n], DOT);
    assert name[..n] + [name[n]] == name[..n + 1];
  }

  /** A byte that breaks the label in progress breaks the name. */
  lemma {:induction false} Unpromising(name: Bytes, n: nat)
    requires n <= |name| && !Promising(Labels(name[..n]))
    ensures !ValidName(name)
    decreases |name| - n
  {
    var labels := Labels(name[..n]);
    if n == |name| {
      assert name[..n] == name;
      if forall i :: 0 <= i < |labels| ==> ValidLabel(labels[i]) {
        assert ValidLabel(Last(labels));
      }
    } else {
      LabelStep(name, n);
      var after := Labels(name[..n + 1]);
      assert !Promising(after) by {
        if Promising(after) {
          if name[n] == DOT {
            assert ValidLabel(after[|labels| - 1]);
            assert forall i :: 0 <= i < |labels| - 1 ==> after[i] == labels[i];
          } else {
            assert forall i :: 0 <= i < |labels| - 1 ==> after[i] == labels[i];
            var grown := Last(after);
            assert forall k :: 0 <= k < |Last(labels)| ==> grown[k] == Last(labels)[k];
          }
          assert Promising(labels);
        }
      }
      Unpromising(name, n + 1);
    }
  }

  /** The byte-by-byte check accepts exactly the names all of whose labels are valid. */
  method ValidateServerName(name: Bytes) returns (ok: bool)
    ensures ok == ValidName(name)
  {
    hide ValidName, Labels, Promising;
    if |name| == 0 || |name| > MAX_NAME {
      WrongLength(name);
      return false;
    }
    var labelLength := 0;
    StartsPromising(name);
    for index := 0 to |name|
      invariant Promising(Labels(name[..index])) && labelLength == |Last(Labels(name[..index]))|
    {
      var b := name[index];
      PromisingStep(name, index);
      if b == DOT {
        if labelLength == 0 || name[index - 1] == HYPHEN {
          Unpromising(name, index + 1);
          return false;
        }
        labelLength := 0;
        continue;
      }
      if (b < 97 || b > 122) && (b < 65 || b > 90) && (b < 48 || b > 57) && b != HYPHEN {
        Unpromising(name, index + 1);
        return false;
      }
      if labelLength == 0 && b == HYPHEN {
        Unpromising(name, index + 1);
        return false;
      }
      labelLength := labelLength + 1;
      if labelLength > MAX_LABEL {
        Unpromising(name, index + 1);
        return false;
      }
    }
    assert name[..|name|] == name;
    PromisingAtEnd(name);
    ok := !(labelLength == 0 || name[|name| - 1] == HYPHEN);
  }

  lemma WrongLength(name: Bytes)
    requires |name| == 0 || |name| > MAX_NAME
    ensures !ValidName(name)
  {
  }

  lemma StartsPromising(name: Bytes)
    ensures Promising(Labels(name[..0])) && |Last(Labels(name[..0]))| == 0
  {
  }

  /** The last byte of a non-empty label in progress is the last byte read. */
  lemma LastByte(name: Bytes, n: nat)
    requires n <= |name| && Last(Labels(name[..n])) != []
    ensures n > 0 && Last(Labels(name[..n]))[|Last(Labels(name[..n]))| - 1] == name[n - 1]
  {
    if n > 0 {
      LabelStep(name, n - 1);
    }
  }

  lemma PromisingStep(name: Bytes, n: nat)
    requires n < |name| && Promising(Labels(name[..n]))
    ensures var part, b := Last(Labels(name[..n])), name[n];
      var next := Labels(name[..n + 1]);
      && (part != [] ==> n > 0)
      && |Last(next)| == (if b == DOT then 0 else |part| + 1)
      && (Promising(next) <==>
          if b == DOT then part != [] && name[n - 1] != HYPHEN
          else LabelByte(b) && (part == [] ==> b != HYPHEN) && |part| < MAX_LABEL)
  {
    LabelStep(name, n);
    if Last(Labels(name[..n])) != [] {
      LastByte(name, n);
    }
    StepPromising(Labels(name[..n]), name[n]);
  }

  lemma StepPromising(labels: seq<Bytes>, b: byte)
    requires |labels| >= 1 && Promising(labels)
    ensures var part := Last(labels);
      var next := if b == DOT then labels + [[]] else labels[..|labels| - 1] + [part + [b]];
      Promising(next) <==>
        if b == DOT then part != [] && part[|part| - 1] != HYPHEN
        else LabelByte(b) && (part == [] ==> b != HYPHEN) && |part| < MAX_LABEL
  {
    hide LabelByte;
    var part := Last(labels);
    if b == DOT {
      var next := labels + [[]];
      assert next[|labels| - 1] == part;
      assert forall i :: 0 <= i < |labels| - 1 ==> next[i] == labels[i];
    } else {
      var next := labels[..|labels| - 1] + [part + [b]];
      assert forall i :: 0 <= i < |labels| - 1 ==> next[i] == labels[i];
      assert Last(next)[|part|] == b;
    }
  }

  lemma PromisingAtEnd(name: Bytes)
    requires 1 <= |name| <= MAX_NAME && Promising(Labels(name))
    ensures ValidName(name) <==> Last(Labels(name)) != [] && name[|name| - 1] != HYPHEN
  {
    var labels := Labels(name);
    assert name[..|name|] == name;
    if Last(labels) != [] {
      LastByte(name, |name|);
    }
    assert ValidName(name) <==> ValidLabel(Last(labels)) by {
      if ValidLabel(Last(labels)) {
        assert forall i :: 0 <= i < |labels| ==> ValidLabel(labels[i]);
      }
    }
  }

  /** What a DNS name is, without reference to splitting: valid labels, joined by dots, of the right total length. */
  lemma ValidNameIsJoinedLabels(name: Bytes)
    ensures ValidName(name) <==>
      && 1 <= |name| <= 253
      && exists labels: seq<Bytes> ::
           |labels| >= 1 && (forall i :: 0 <= i < |labels| ==> ValidLabel(labels[i])) && name == Join(labels, 46)
  {
    hide Split, Join;
    JoinSplit(name, DOT);
    forall labels: seq<Bytes> |
      |labels| >= 1 && (forall i :: 0 <= i < |labels| ==> ValidLabel(labels[i])) && name == Join(labels, DOT)
      ensures Labels(name) == labels
    {
      forall i | 0 <= i < |labels| ensures DOT !in labels[i] {
        assert ValidLabel(labels[i]);
      }
      SplitJoin(labels, DOT);
    }
    if ValidName(name) {
      assert name == Join(Labels(name), DOT);
    }
  }
}
