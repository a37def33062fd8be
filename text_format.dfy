/**
 * The text helpers of the analyzer: the broker-name cleaner, which keeps
 * only CJK and full-width characters and `()-`, and the string handling in
 * front of the number parser (whitespace strip, comma removal, accounting
 * negatives in parentheses, lot counts written with 張).
 */
module TextFormat {
  import opened Wrappers

  /** A cell value as the helpers receive it. */
  datatype Value =
    | Missing            // None, NaN and the other values `pd.isna` accepts
    | Number(x: real)    // int, float and numpy numbers
    | Str(s: string)
    | Other              // any other object

  /** The characters a broker name keeps. */
  predicate NameChar(c: char)
  {
    || ('\U{4E00}' <= c <= '\U{9FFF}')   // CJK unified ideographs
    || ('\U{3000}' <= c <= '\U{303F}')   // CJK symbols and punctuation
    || ('\U{FF00}' <= c <= '\U{FFEF}')   // half-width and full-width forms
    || c == '(' || c == ')' || c == '-'
  }

  /** The characters of `s` that are name characters, in order. */
  function KeepNameChars(s: string): (r: string)
    ensures |r| <= |s|
    ensures forall k :: 0 <= k < |r| ==> NameChar(r[k])
  {
    if s == [] then [] else (if NameChar(s[0]) then [s[0]] else []) + KeepNameChars(s[1..])
  }

  /** `format_broker_name`: the cleaned name of a string, "" for anything else. */
  function FormatBrokerName(name: Value): (r: string)
    ensures !name.Str? ==> r == []
    ensures forall k :: 0 <= k < |r| ==> NameChar(r[k])
  {
    if name.Str? then KeepNameChars(name.s) else []
  }

  /** `a` is `b` with some characters removed. */
  predicate IsSubsequence(a: string, b: string)
  {
    if a == [] then true
    else if b == [] then false
    else if a[0] == b[0] then IsSubsequence(a[1..], b[1..])
    else IsSubsequence(a, b[1..])
  }

  /** The cleaned name keeps the order of the characters it keeps. */
  lemma {:induction false} KeepNameCharsIsSubsequence(s: string)
    ensures IsSubsequence(KeepNameChars(s), s)
  {
    if s != [] {
      KeepNameCharsIsSubsequence(s[1..]);
      var r := KeepNameChars(s);
      if r != [] {
        assert NameChar(r[0]);
      }
      if NameChar(s[0]) {
        assert r[1..] == KeepNameChars(s[1..]);
      } else {
        assert r == KeepNameChars(s[1..]);
      }
    }
  }

  /**
   * The cleaner keeps every occurrence of every name character and no
   * occurrence of any other character.
   */
  lemma {:induction false} KeepNameCharsCounts(s: string, c: char)
    ensures multiset(KeepNameChars(s))[c] == if NameChar(c) then multiset(s)[c] else 0
  {
    if s != [] {
      KeepNameCharsCounts(s[1..], c);
      assert s == [s[0]] + s[1..];
    }
  }

  /** The cleaner works character by character, so it distributes over concatenation. */
  lemma {:induction false} KeepNameCharsAppend(a: string, b: string)
    ensures KeepNameChars(a + b) == KeepNameChars(a) + KeepNameChars(b)
  {
    if a == [] {
      assert a + b == b;
    } else {
      assert (a + b)[0] == a[0] && (a + b)[1..] == a[1..] + b;
      KeepNameCharsAppend(a[1..], b);
    }
  }

  /** A string of name characters only is left as it is. */
  lemma {:induction false} KeepNameCharsFixed(s: string)
    ensures KeepNameChars(s) == s <==> forall k :: 0 <= k < |s| ==> NameChar(s[k])
  {
    if s != [] {
      KeepNameCharsFixed(s[1..]);
      if !NameChar(s[0]) {
        assert |KeepNameChars(s)| < |s|;
      } else {
        assert forall k :: 1 <= k < |s| ==> s[k] == s[1..][k - 1];
      }
    }
  }

  /** Cleaning a cleaned name changes nothing. */
  lemma FormatBrokerNameIdempotent(name: Value)
    ensures FormatBrokerName(Str(FormatBrokerName(name))) == FormatBrokerName(name)
  {
    KeepNameCharsFixed(FormatBrokerName(name));
  }

  /** The characters Python's `str.strip()` removes (`str.isspace`). */
  predicate IsSpace(c: char)
  {
    || ('\t' <= c <= '\r')                   // tab, line feed, vertical tab, form feed, carriage return
    || ('\U{1C}' <= c <= '\U{1F}')           // file, group, record and unit separators
    || c == ' ' || c == '\U{85}' || c == '\U{A0}' || c == '\U{1680}'
    || ('\U{2000}' <= c <= '\U{200A}')
    || c == '\U{2028}' || c == '\U{2029}' || c == '\U{202F}' || c == '\U{205F}' || c == '\U{3000}'
  }

  /** `s` without its leading whitespace. */
  function StripStart(s: string): (r: string)
    ensures |r| <= |s| && r == s[|s| - |r|..]
    ensures forall k :: 0 <= k < |s| - |r| ==> IsSpace(s[k])
    ensures r == [] || !IsSpace(r[0])
  {
    if s != [] && IsSpace(s[0]) then StripStart(s[1..]) else s
  }

  /** `s` without its trailing whitespace. */
  function StripEnd(s: string): (r: string)
    ensures |r| <= |s| && r == s[..|r|]
    ensures forall k :: |r| <= k < |s| ==> IsSpace(s[k])
    ensures r == [] || !IsSpace(r[|r| - 1])
  {
    if s != [] && IsSpace(s[|s| - 1]) then StripEnd(s[..|s| - 1]) else s
  }

  /** `str.strip()`. */
  function Strip(s: string): string
  {
    StripEnd(StripStart(s))
  }

  /** A string that neither starts nor ends with whitespace is its own strip. */
  lemma StripUnchanged(s: string)
    requires s == [] || (!IsSpace(s[0]) && !IsSpace(s[|s| - 1]))
    ensures Strip(s) == s
  {
  }

  /** Leading whitespace in front of a string that does not start with whitespace is all removed. */
  lemma {:induction false} StripStartPadded(pad: string, s: string)
    requires forall k :: 0 <= k < |pad| ==> IsSpace(pad[k])
    requires s == [] || !IsSpace(s[0])
    ensures StripStart(pad + s) == s
  {
    if pad == [] {
      assert pad + s == s;
    } else {
      assert (pad + s)[0] == pad[0] && (pad + s)[1..] == pad[1..] + s;
      StripStartPadded(pad[1..], s);
    }
  }

  /** Trailing whitespace after a string that does not end with whitespace is all removed. */
  lemma {:induction false} StripEndPadded(s: string, pad: string)
    requires forall k :: 0 <= k < |pad| ==> IsSpace(pad[k])
    requires s == [] || !IsSpace(s[|s| - 1])
    ensures StripEnd(s + pad) == s
  {
    if pad == [] {
      assert s + pad == s;
    } else {
      var t := s + pad;
      assert t[|t| - 1] == pad[|pad| - 1];
      assert t[..|t| - 1] == s + pad[..|pad| - 1];
      StripEndPadded(s, pad[..|pad| - 1]);
    }
  }

  /** `strip()` removes exactly the whitespace padding around a string that has none at its ends. */
  lemma StripPadded(before: string, s: string, after: string)
    requires forall k :: 0 <= k < |before| ==> IsSpace(before[k])
    requires forall k :: 0 <= k < |after| ==> IsSpace(after[k])
    requires s == [] || (!IsSpace(s[0]) && !IsSpace(s[|s| - 1]))
    ensures Strip(before + s + after) == s
  {
    if s == [] {
      var pad := before + after;
      assert forall k :: 0 <= k < |pad| ==> IsSpace(pad[k]) by {
        forall k | 0 <= k < |pad|
          ensures IsSpace(pad[k])
        {
          if k >= |before| {
            assert pad[k] == after[k - |before|];
          }
        }
      }
      assert before + s + after == pad + [];
      StripStartPadded(pad, []);
    } else {
      assert before + s + after == before + (s + after);
      assert (s + after)[0] == s[0];
      StripStartPadded(before, s + after);
      StripEndPadded(s, after);
    }
  }

  /** `str.replace(",", "")`. */
  function DropCommas(s: string): (r: string)
    ensures ',' !in r
    ensures forall c :: c != ',' ==> multiset(r)[c] == multiset(s)[c]
  {
    if s == [] then []
    else
      assert s == [s[0]] + s[1..];
      (if s[0] == ',' then [] else [s[0]]) + DropCommas(s[1..])
  }

  /** Comma removal distributes over concatenation. */
  lemma {:induction false} DropCommasAppend(a: string, b: string)
    ensures DropCommas(a + b) == DropCommas(a) + DropCommas(b)
  {
    if a == [] {
      assert a + b == b;
    } else {
      assert (a + b)[0] == a[0] && (a + b)[1..] == a[1..] + b;
      DropCommasAppend(a[1..], b);
    }
  }

  /** A string without commas is left as it is; in particular, removal is idempotent. */
  lemma {:induction false} DropCommasUnchanged(s: string)
    requires ',' !in s
    ensures DropCommas(s) == s
  {
    if s != [] {
      assert s[0] in s;
      assert forall c :: c in s[1..] ==> c in s;
      DropCommasUnchanged(s[1..]);
    }
  }

  /** The part of `s` before its first 張 (`s.split("張")[0]`). */
  function BeforeLots(s: string): (r: string)
    ensures |r| <= |s| && r == s[..|r|]
    ensures '張' !in r
    ensures |r| < |s| ==> s[|r|] == '張'
  {
    if s == [] || s[0] == '張' then []
    else [s[0]] + BeforeLots(s[1..])
  }

  /** The value of a parse, 0 when it failed. */
  function OrZero(p: Option<real>): real
  {
    match p
    case Some(x) => x
    case None => 0.0
  }

  /**
   * `parse_formatted_number`. Python's `float(...)` is the parameter
   * `toFloat`, which gives `None` where Python raises `ValueError`.
   */
  function ParseFormattedNumber(value: Value, toFloat: string -> Option<real>): (r: real)
    ensures value.Missing? || value.Other? ==> r == 0.0
    ensures value.Number? ==> r == value.x
    ensures value.Str? && (forall t :: toFloat(t).None?) ==> r == 0.0
  {
    match value
    case Missing => 0.0
    case Number(x) => x
    case Other => 0.0
    case Str(s) => ParseCleaned(DropCommas(Strip(s)), toFloat)
  }

  /** The string branch of `parse_formatted_number`, after strip and comma removal. */
  function ParseCleaned(v: string, toFloat: string -> Option<real>): (r: real)
    ensures (forall t :: toFloat(t).None?) ==> r == 0.0
  {
    if |v| >= 2 && v[0] == '(' && v[|v| - 1] == ')' then
      match toFloat(v[1..|v| - 1])
      case Some(x) => -x
      case None => 0.0
    else if '張' in v && '(' in v && ')' in v then
      match toFloat(BeforeLots(v))
      case Some(x) => x * 1000.0
      case None => 0.0
    else
      match toFloat(v)
      case Some(x) => x
      case None => 0.0
  }

  /**
   * An amount in parentheses is the negative of the amount inside, commas
   * removed; an amount inside that does not parse gives 0.
   */
  lemma ParenthesesNegate(t: string, toFloat: string -> Option<real>)
    ensures ParseFormattedNumber(Str("(" + t + ")"), toFloat) == -OrZero(toFloat(DropCommas(t)))
  {
    var s := "(" + t + ")";
    assert s[0] == '(' && s[|s| - 1] == ')';
    StripUnchanged(s);
    DropCommasWrap(t);
    ParenthesesCleaned(DropCommas(t), toFloat);
  }

  lemma DropCommasWrap(t: string)
    ensures DropCommas("(" + t + ")") == "(" + DropCommas(t) + ")"
  {
    DropCommasAppend("(" + t, ")");
    DropCommasAppend("(", t);
  }

  lemma ParenthesesCleaned(d: string, toFloat: string -> Option<real>)
    ensures ParseCleaned("(" + d + ")", toFloat) == -OrZero(toFloat(d))
  {
    var v := "(" + d + ")";
    assert v[1..|v| - 1] == d;
  }

  /**
   * A plain amount, padded with any whitespace, parses to the `float` of the
   * amount with its commas removed, and to 0 when that does not parse.
   */
  lemma PlainAmount(before: string, d: string, after: string, toFloat: string -> Option<real>)
    requires forall k :: 0 <= k < |before| ==> IsSpace(before[k])
    requires forall k :: 0 <= k < |after| ==> IsSpace(after[k])
    requires d == [] || (!IsSpace(d[0]) && !IsSpace(d[|d| - 1]))
    requires '(' !in d && '張' !in d
    ensures ParseFormattedNumber(Str(before + d + after), toFloat) == OrZero(toFloat(DropCommas(d)))
  {
    StripPadded(before, d, after);
    DropCommasKeeps(d, '(');
    DropCommasKeeps(d, '張');
    PlainCleaned(DropCommas(d), toFloat);
  }

  /** Without an opening parenthesis or a 張, the cleaned string goes to `float` as it is. */
  lemma PlainCleaned(v: string, toFloat: string -> Option<real>)
    requires '(' !in v && '張' !in v
    ensures ParseCleaned(v, toFloat) == OrZero(toFloat(v))
  {
    if |v| >= 2 {
      assert v[0] in v;
    }
  }

  /**
   * A count in lots followed by a parenthesised note, such as `1,234張(5%)`,
   * is the count before 張 times 1000.
   */
  lemma LotsTimesThousand(t: string, note: string, toFloat: string -> Option<real>)
    requires t != [] && !IsSpace(t[0]) && t[0] != '(' && t[0] != ',' && '張' !in t
    requires ',' !in note
    ensures ParseFormattedNumber(Str(t + "張(" + note + ")"), toFloat) == OrZero(toFloat(DropCommas(t))) * 1000.0
  {
    var tail := "張(" + note + ")";
    assert t + "張(" + note + ")" == t + tail;
    LotsNoteNoComma(note);
    assert |tail| >= 3 && tail[0] == '張' && tail[1] == '(' && tail[|tail| - 1] == ')';
    LotsParse(t, tail, toFloat);
  }

  /** The same, for any comma-free tail that opens with `張(` and closes with `)`. */
  lemma LotsParse(t: string, tail: string, toFloat: string -> Option<real>)
    requires t != [] && !IsSpace(t[0]) && t[0] != '(' && t[0] != ',' && '張' !in t
    requires ',' !in tail && |tail| >= 3 && tail[0] == '張' && tail[1] == '(' && tail[|tail| - 1] == ')'
    ensures ParseFormattedNumber(Str(t + tail), toFloat) == OrZero(toFloat(DropCommas(t))) * 1000.0
  {
    var s := t + tail;
    var d := DropCommas(t);
    assert s[0] == t[0] && s[|s| - 1] == ')';
    StripUnchanged(s);
    DropCommasTail(t, tail);
    DropCommasKeeps(t, '張');
    DropCommasHead(t);
    LotsCleaned(d, tail, toFloat);
  }

  /** Comma removal leaves a comma-free suffix in place. */
  lemma DropCommasTail(t: string, tail: string)
    requires ',' !in tail
    ensures DropCommas(t + tail) == DropCommas(t) + tail
  {
    DropCommasAppend(t, tail);
    DropCommasUnchanged(tail);
  }

  /** Comma removal keeps every other character that occurs. */
  lemma DropCommasKeeps(t: string, c: char)
    requires c != ','
    ensures c in DropCommas(t) <==> c in t
  {
    assert multiset(DropCommas(t))[c] == multiset(t)[c];
  }

  /** The note of a lots count, with its 張 and parentheses, has no comma when the note has none. */
  lemma LotsNoteNoComma(note: string)
    requires ',' !in note
    ensures ',' !in "張(" + note + ")"
  {
    var tail := "張(" + note + ")";
    forall k | 0 <= k < |tail|
      ensures tail[k] != ','
    {
      if 2 <= k < |tail| - 1 {
        assert tail[k] == note[k - 2];
      }
    }
  }

  /** A count `d` followed by a 張 and a parenthesised note parses as `d` times 1000. */
  lemma LotsCleaned(d: string, tail: string, toFloat: string -> Option<real>)
    requires d != [] && d[0] != '(' && '張' !in d
    requires |tail| >= 3 && tail[0] == '張' && tail[1] == '(' && tail[|tail| - 1] == ')'
    ensures ParseCleaned(d + tail, toFloat) == OrZero(toFloat(d)) * 1000.0
  {
    var v := d + tail;
    assert v[0] == d[0] && v[|d|] == '張' && v[|d| + 1] == '(' && v[|v| - 1] == ')';
    assert '張' in v && '(' in v && ')' in v;
    BeforeLotsAt(d, tail);
  }

  /** The first kept character of a comma-free copy is the first non-comma one. */
  lemma DropCommasHead(t: string)
    requires t != [] && t[0] != ','
    ensures DropCommas(t) != [] && DropCommas(t)[0] == t[0]
  {
  }

  /** The part before the first 張 of `d + rest`, when `d` has none and `rest` starts with one. */
  lemma {:induction false} BeforeLotsAt(d: string, rest: string)
    requires '張' !in d && rest != [] && rest[0] == '張'
    ensures BeforeLots(d + rest) == d
  {
    if d != [] {
      assert (d + rest)[0] == d[0] && (d + rest)[1..] == d[1..] + rest;
      assert d[0] in d;
      assert forall c :: c in d[1..] ==> c in d;
      BeforeLotsAt(d[1..], rest);
    } else {
      assert d + rest == rest;
    }
  }
}
