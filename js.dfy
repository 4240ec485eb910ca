/** The few JavaScript built-ins the profile page relies on, with the
    semantics JavaScript gives them: truthiness of an optional string,
    `String.prototype.trim`, `String.prototype.split` with a one-character
    separator, and `Array.prototype.join`. */
module Js {

  /** A value that may be `undefined` or `null` (None) or present (Some). */
  datatype Option<+T> = None | Some(value: T)

  /** JavaScript truthiness of an optional string: `undefined`, `null` and
      the empty string are falsy, every other string is truthy. */
  predicate Truthy(v: Option<string>) {
    v.Some? && v.value != ""
  }

  /** A string-valued field has exactly two falsy values: a missing one and
      the empty string. */
  lemma FalsyValues(v: Option<string>)
    ensures !Truthy(v) <==> v == None || v == Some("")
  {
  }

  /** `v || fallback` where `fallback` is a string. */
  function Or(v: Option<string>, fallback: string): (r: string)
    ensures Truthy(v) ==> r == v.value
    ensures !Truthy(v) ==> r == fallback
    ensures r == "" ==> !Truthy(v) && fallback == ""
  {
    if Truthy(v) then v.value else fallback
  }

  // ---------------------------------------------------------------------
  // trim

  /** The code points `String.prototype.trim` removes: the WhiteSpace and
      LineTerminator productions of ECMAScript (section 12.2 and 12.3 of
      ECMA-262), with the space separators (category Zs) listed out. */
  predicate IsWhiteSpace(c: char) {
    || c == '\t' || c == '\n' || c == '\U{000B}' || c == '\U{000C}' || c == '\r'
    || c == ' ' || c == '\U{00A0}' || c == '\U{1680}'
    || ('\U{2000}' <= c <= '\U{200A}')
    || c == '\U{2028}' || c == '\U{2029}' || c == '\U{202F}' || c == '\U{205F}'
    || c == '\U{3000}' || c == '\U{FEFF}'
  }

  predicate AllWhiteSpace(s: string) {
    forall i :: 0 <= i < |s| ==> IsWhiteSpace(s[i])
  }

  /** Drops the leading white space of `s`: the result is the suffix of `s`
      that starts at its first non-white-space character. */
  function TrimStart(s: string): (r: string)
    ensures |r| <= |s| && r == s[|s| - |r|..]
    ensures AllWhiteSpace(s[..|s| - |r|])
    ensures r != [] ==> !IsWhiteSpace(r[0])
  {
    if s != [] && IsWhiteSpace(s[0]) then TrimStart(s[1..]) else s
  }

  /** Drops the trailing white space of `s`: the result is the prefix of `s`
      that ends at its last non-white-space character. */
  function TrimEnd(s: string): (r: string)
    ensures |r| <= |s| && r == s[..|r|]
    ensures AllWhiteSpace(s[|r|..])
    ensures r != [] ==> !IsWhiteSpace(r[|r| - 1])
  {
    if s != [] && IsWhiteSpace(s[|s| - 1]) then TrimEnd(s[..|s| - 1]) else s
  }

  /** `s.trim()`: `s` without its leading and trailing white space. */
  function Trim(s: string): (r: string)
    ensures |r| <= |s|
    ensures r == [] <==> AllWhiteSpace(s)
    ensures r != [] ==> !IsWhiteSpace(r[0]) && !IsWhiteSpace(r[|r| - 1])
  {
    var t := TrimStart(s);
    var r := TrimEnd(t);
    assert r == [] ==> AllWhiteSpace(s) by {
      if r == [] {
        assert t == [];
        assert s[..|s|] == s;
      }
    }
    r
  }

  /** A string that `trim` leaves as it is. */
  predicate Trimmed(s: string) {
    s == [] || (!IsWhiteSpace(s[0]) && !IsWhiteSpace(s[|s| - 1]))
  }

  /** Trimming the front of `a + b` stops inside `a` when `a` holds a
      character that is not white space. */
  lemma {:induction false} TrimStartAppend(a: string, b: string)
    requires !AllWhiteSpace(a)
    ensures TrimStart(a + b) == TrimStart(a) + b
    decreases |a|
  {
    if IsWhiteSpace(a[0]) {
      assert (a + b)[1..] == a[1..] + b;
      assert !AllWhiteSpace(a[1..]) by {
        var i :| 0 <= i < |a| && !IsWhiteSpace(a[i]);
        assert a[1..][i - 1] == a[i];
      }
      TrimStartAppend(a[1..], b);
    } else {
      assert (a + b)[0] == a[0];
    }
  }

  /** Leading white space makes no difference to `TrimStart`. */
  lemma {:induction false} TrimStartSkip(a: string, b: string)
    requires AllWhiteSpace(a)
    ensures TrimStart(a + b) == TrimStart(b)
    decreases |a|
  {
    if a != [] {
      assert (a + b)[0] == a[0];
      assert (a + b)[1..] == a[1..] + b;
      assert AllWhiteSpace(a[1..]) by {
        forall i | 0 <= i < |a[1..]| ensures IsWhiteSpace(a[1..][i]) {
          assert a[1..][i] == a[i + 1];
        }
      }
      TrimStartSkip(a[1..], b);
    } else {
      assert a + b == b;
    }
  }

  /** Trailing white space makes no difference to `TrimEnd`. */
  lemma {:induction false} TrimEndSkip(a: string, b: string)
    requires AllWhiteSpace(b)
    ensures TrimEnd(a + b) == TrimEnd(a)
    decreases |b|
  {
    if b != [] {
      var c := b[..|b| - 1];
      assert (a + b)[|a + b| - 1] == b[|b| - 1];
      assert (a + b)[..|a + b| - 1] == a + c;
      assert AllWhiteSpace(c) by {
        forall i | 0 <= i < |c| ensures IsWhiteSpace(c[i]) {
          assert c[i] == b[i];
        }
      }
      TrimEndSkip(a, c);
    } else {
      assert a + b == a;
    }
  }

  /** Trimming the end of `a + b` stops inside `b` when `b` holds a
      character that is not white space. */
  lemma {:induction false} TrimEndPrepend(a: string, b: string)
    requires !AllWhiteSpace(b)
    ensures TrimEnd(a + b) == a + TrimEnd(b)
    decreases |b|
  {
    var n := |b| - 1;
    assert (a + b)[|a + b| - 1] == b[n];
    if IsWhiteSpace(b[n]) {
      var c := b[..n];
      assert (a + b)[..|a + b| - 1] == a + c;
      assert !AllWhiteSpace(c) by {
        var i :| 0 <= i < |b| && !IsWhiteSpace(b[i]);
        assert c[i] == b[i];
      }
      TrimEndPrepend(a, c);
    }
  }

  /** A trimmed string is a fixed point of `trim`. */
  lemma {:induction false} TrimTrimmed(s: string)
    requires Trimmed(s)
    ensures Trim(s) == s
  {
    if s != [] {
      assert TrimStart(s) == s;
      assert TrimEnd(s) == s;
    }
  }

  /** Leading and trailing white space do not survive `trim`, whatever
      sits between them. */
  lemma {:induction false} TrimSurrounded(a: string, mid: string, b: string)
    requires AllWhiteSpace(a) && AllWhiteSpace(b)
    ensures Trim(a + mid + b) == Trim(mid)
  {
    assert a + mid + b == a + (mid + b);
    TrimStartSkip(a, mid + b);
    if AllWhiteSpace(mid) {
      assert AllWhiteSpace(mid + b) by {
        forall i | 0 <= i < |mid + b| ensures IsWhiteSpace((mid + b)[i]) {
          if i < |mid| { assert (mid + b)[i] == mid[i]; } else { assert (mid + b)[i] == b[i - |mid|]; }
        }
      }
      assert Trim(mid + b) == [];
    } else {
      TrimStartAppend(mid, b);
      TrimEndSkip(TrimStart(mid), b);
    }
  }

  // ---------------------------------------------------------------------
  // split and join

  /** `s.split(sep)` for a one-character separator: the pieces between
      consecutive occurrences of `sep`, including the empty ones; the empty
      string gives one empty piece. */
  function Split(s: string, sep: char): (pieces: seq<string>)
    ensures |pieces| >= 1
    ensures forall i :: 0 <= i < |pieces| ==> sep !in pieces[i]
    ensures Join(pieces, [sep]) == s
  {
    if s == [] then [""]
    else
      var rest := Split(s[1..], sep);
      if s[0] == sep then
        var r := [""] + rest;
        assert r[1..] == rest;
        r
      else
        var r := [[s[0]] + rest[0]] + rest[1..];
        assert r[1..] == rest[1..];
        r
  }

  /** `pieces.join(sep)`. */
  function Join(pieces: seq<string>, sep: string): (s: string)
  {
    if pieces == [] then ""
    else if |pieces| == 1 then pieces[0]
    else pieces[0] + sep + Join(pieces[1..], sep)
  }

  /** Joining with `sep` a sequence of pieces free of `sep` and splitting the
      result again gives the pieces back: `split` and `join` are inverse. */
  lemma {:induction false} JoinSplit(pieces: seq<string>, sep: char)
    requires |pieces| >= 1
    requires forall i :: 0 <= i < |pieces| ==> sep !in pieces[i]
    ensures Split(Join(pieces, [sep]), sep) == pieces
    decreases |pieces|, |pieces[0]|
  {
    var p := pieces[0];
    if p == [] {
      if |pieces| == 1 {
      } else {
        var s := Join(pieces, [sep]);
        assert s == [sep] + Join(pieces[1..], [sep]);
        assert s[1..] == Join(pieces[1..], [sep]);
        JoinSplit(pieces[1..], sep);
        assert pieces == [""] + pieces[1..];
      }
    } else {
      var tail := [p[1..]] + pieces[1..];
      assert tail[1..] == pieces[1..];
      assert forall i :: 1 <= i < |tail| ==> tail[i] == pieces[i];
      assert sep !in p[1..] by {
        assert forall k :: 0 <= k < |p[1..]| ==> p[1..][k] == p[k + 1];
      }
      var s := Join(pieces, [sep]);
      if |pieces| == 1 {
        assert s == p;
        assert Join(tail, [sep]) == p[1..];
      } else {
        assert s == p + [sep] + Join(pieces[1..], [sep]);
        assert Join(tail, [sep]) == p[1..] + [sep] + Join(pieces[1..], [sep]);
      }
      assert s[0] == p[0] && s[0] != sep;
      assert s[1..] == Join(tail, [sep]);
      JoinSplit(tail, sep);
      assert [p[0]] + p[1..] == p;
      assert pieces == [p] + pieces[1..];
    }
  }
}
