/** Python values as `json.loads` returns them, and the few Python operations
    the alarm relay performs on them: `d[k]` on a dict, `d.update({k: v})`,
    `v[0]` and `str(v)`.

    A Python dict remembers the order in which its keys were first inserted,
    so a JSON object is modelled as a sequence of (key, value) entries rather
    than as a Dafny map; `IsDict` says the keys are distinct, as they are in
    every dict Python builds. */
module PyJson {
  import opened Wrappers

  /** A value produced by `json.loads`: `None`, a bool, an int, a float, a str,
      a list or a dict. A float is kept as the text `str()` prints for it. */
  datatype Json =
    | JNull
    | JBool(b: bool)
    | JInt(i: int)
    | JFloat(text: string)
    | JString(s: string)
    | JArray(elems: seq<Json>)
    | JObject(members: seq<(string, Json)>)

  /** The entries of a Python dict, in insertion order. */
  type Dict = seq<(string, Json)>

  /** The keys of a dict. */
  function Keys(d: Dict): (ks: set<string>)
    ensures d != [] ==> d[0].0 in ks
    ensures |d| == 1 ==> ks == {d[0].0}
  {
    if d == [] then {} else {d[0].0} + Keys(d[1..])
  }

  /** The keys are distinct, as in every dict Python builds. */
  predicate IsDict(d: Dict)
  {
    d == [] || (d[0].0 !in Keys(d[1..]) && IsDict(d[1..]))
  }

  /** `d[k]`: the value stored under `k`; `None` where Python raises `KeyError`. */
  function Get(d: Dict, k: string): Option<Json>
  {
    if d == [] then None
    else if d[0].0 == k then Some(d[0].1)
    else Get(d[1..], k)
  }

  /** `d.update({k: v})`: an existing key keeps its place and takes the new
      value; a new key is appended at the end. */
  function Update(d: Dict, k: string, v: Json): (r: Dict)
    ensures |r| == if k in Keys(d) then |d| else |d| + 1
  {
    if d == [] then [(k, v)]
    else if d[0].0 == k then [(k, v)] + d[1..]
    else [d[0]] + Update(d[1..], k, v)
  }

  /** `v[k]` with a str key on any value: only a dict can be subscripted so;
      every other value raises `TypeError`, a dict without `k` `KeyError`. */
  function Subscript(v: Json, k: string): (r: Option<Json>)
    ensures r.Some? <==> v.JObject? && k in Keys(v.members)
  {
    if v.JObject? then GetDefined(v.members, k); Get(v.members, k) else None
  }

  /** `v[0]`: the first element of a non-empty list, or the first character of
      a non-empty str (as a one-character str). An empty list or str raises
      `IndexError`; a dict raises `KeyError`, since JSON keys are strings;
      any other value raises `TypeError`. */
  function At0(v: Json): (r: Option<Json>)
    ensures r.Some? <==> (v.JArray? && |v.elems| > 0) || (v.JString? && |v.s| > 0)
  {
    match v
    case JArray(es) => if |es| > 0 then Some(es[0]) else None
    case JString(s) => if |s| > 0 then Some(JString([s[0]])) else None
    case _ => None
  }

  /** `str(v)`, which is also what `"{}".format(v)` inserts. */
  function Str(v: Json): (r: string)
    ensures v.JString? ==> r == v.s
  {
    if v.JString? then v.s else Repr(v)
  }

  /** `repr(v)`: how `str()` shows a value nested inside a list or dict. */
  function Repr(v: Json): (r: string)
    ensures v.JArray? ==> |r| >= 2 && r[0] == '[' && r[|r| - 1] == ']'
    ensures v.JObject? ==> |r| >= 2 && r[0] == '{' && r[|r| - 1] == '}'
    ensures v.JString? ==> |r| >= 2 && r[0] == r[|r| - 1] && r[0] in "'\""
    decreases v
  {
    match v
    case JNull => "None"
    case JBool(b) => if b then "True" else "False"
    case JInt(i) => Decimal(i)
    case JFloat(t) => t
    case JString(s) => Quote(s)
    case JArray(es) =>
      "[" + Join(seq(|es|, i requires 0 <= i < |es| => Repr(es[i]))) + "]"
    case JObject(ms) =>
      "{" + Join(seq(|ms|, i requires 0 <= i < |ms| => Quote(ms[i].0) + ": " + Repr(ms[i].1))) + "}"
  }

  /** The parts separated by ", ", as `", ".join(parts)`. */
  function Join(parts: seq<string>): string
  {
    if parts == [] then ""
    else if |parts| == 1 then parts[0]
    else parts[0] + ", " + Join(parts[1..])
  }

  /** `repr(s)` for a str: single quotes, unless the text holds a single quote
      and no double quote. */
  function Quote(s: string): (r: string)
    ensures |r| >= 2 && r[0] == r[|r| - 1]
    ensures r[0] == (if '\'' in s && '"' !in s then '"' else '\'')
  {
    var q := if '\'' in s && '"' !in s then '"' else '\'';
    [q] + Escape(s, q) + [q]
  }

  function Escape(s: string, q: char): string
  {
    if s == [] then "" else EscapeChar(s[0], q) + Escape(s[1..], q)
  }

  /** How `repr` writes one character of a str quoted with `q`. */
  function EscapeChar(c: char, q: char): string
  {
    if c == q || c == '\\' then ['\\', c]
    else if c == '\t' then "\\t"
    else if c == '\n' then "\\n"
    else if c == '\r' then "\\r"
    else if c < ' ' || c as int == 0x7F then "\\x" + [HexDigit(c as int / 16), HexDigit(c as int % 16)]
    else [c]
  }

  function HexDigit(n: nat): char
    requires n < 16
  {
    "0123456789abcdef"[n]
  }

  /** `str(i)` for an int: its decimal digits, with a leading '-' when negative. */
  function Decimal(i: int): (r: string)
    ensures |r| > 0
    ensures r[0] == '-' <==> i < 0
    ensures IsDigits(if i < 0 then r[1..] else r)
    // no leading zero: the only digit string starting with '0' is "0" itself
    ensures i < 0 ==> |r| >= 2 && r[1] != '0'
    ensures i >= 0 ==> (r[0] == '0' <==> i == 0)
    ensures i == 0 ==> r == "0"
  {
    if i < 0 then "-" + Digits(-i) else Digits(i)
  }

  function Digits(n: nat): (r: string)
    ensures |r| > 0 && IsDigits(r)
    ensures r[0] == '0' <==> n == 0
    ensures n == 0 ==> r == "0"
  {
    if n < 10 then [DigitChar(n)] else Digits(n / 10) + [DigitChar(n % 10)]
  }

  function DigitChar(n: nat): (c: char)
    requires n < 10
    ensures '0' <= c <= '9'
  {
    (48 + n) as char
  }

  predicate IsDigits(s: string)
  {
    forall i :: 0 <= i < |s| ==> '0' <= s[i] <= '9'
  }

  /** `int(s)` for a str of decimal digits, possibly signed with '-'. */
  function DecimalValue(s: string): int
  {
    if |s| > 0 && s[0] == '-' then 0 - DigitsValue(s[1..]) else DigitsValue(s) as int
  }

  function DigitsValue(s: string): nat
  {
    if s == [] then 0
    else DigitsValue(s[..|s| - 1]) * 10 + (if '0' <= s[|s| - 1] <= '9' then s[|s| - 1] as nat - 48 else 0)
  }

  // ---------------------------------------------------------------------
  // Laws of the dict operations.

  /** Reading back the digits of an int gives the int: `int(str(i)) == i`. */
  lemma DecimalRoundTrip(i: int)
    ensures DecimalValue(Decimal(i)) == i
  {
    if i < 0 {
      DigitsRoundTrip(-i);
      assert ("-" + Digits(-i))[1..] == Digits(-i);
    } else {
      DigitsRoundTrip(i);
    }
  }

  lemma {:induction false} DigitsRoundTrip(n: nat)
    ensures DigitsValue(Digits(n)) == n
  {
    if n >= 10 {
      DigitsRoundTrip(n / 10);
      var r := Digits(n);
      assert r[..|r| - 1] == Digits(n / 10);
    }
  }

  /** `d[k]` succeeds exactly when `k` is one of the keys. */
  lemma {:induction false} GetDefined(d: Dict, k: string)
    ensures Get(d, k).Some? <==> k in Keys(d)
  {
    if d != [] && d[0].0 != k {
      GetDefined(d[1..], k);
    }
  }

  /** What `d[k]` finds is the first entry under `k`: every entry before it
      has another key. */
  lemma {:induction false} GetFound(d: Dict, k: string)
    ensures Get(d, k).Some? ==>
              exists i :: 0 <= i < |d| && d[i] == (k, Get(d, k).value)
                          && forall j :: 0 <= j < i ==> d[j].0 != k
  {
    if d != [] && d[0].0 != k {
      GetFound(d[1..], k);
      if Get(d, k).Some? {
        var i :| 0 <= i < |d[1..]| && d[1..][i] == (k, Get(d, k).value)
                 && forall j :: 0 <= j < i ==> d[1..][j].0 != k;
        assert d[i + 1] == (k, Get(d, k).value);
        assert forall j :: 0 <= j < i + 1 ==> d[j].0 != k by {
          forall j | 0 <= j < i + 1 ensures d[j].0 != k {
            if j > 0 { assert d[j] == d[1..][j - 1]; }
          }
        }
      }
    } else if d != [] {
      assert d[0] == (k, Get(d, k).value);
    }
  }

  /** After `d.update({k: v})`, `k` maps to `v` and every other key is unchanged. */
  lemma {:induction false} GetUpdate(d: Dict, k: string, v: Json, k': string)
    ensures Get(Update(d, k, v), k') == if k' == k then Some(v) else Get(d, k')
  {
    if d != [] && d[0].0 != k {
      GetUpdate(d[1..], k, v, k');
      assert Update(d, k, v)[1..] == Update(d[1..], k, v);
    } else if d != [] {
      assert Update(d, k, v)[1..] == d[1..];
    }
  }

  /** Updating adds `k` to the keys and removes none. */
  lemma {:induction false} KeysUpdate(d: Dict, k: string, v: Json)
    ensures Keys(Update(d, k, v)) == Keys(d) + {k}
  {
    if d != [] && d[0].0 != k {
      KeysUpdate(d[1..], k, v);
      assert Update(d, k, v)[1..] == Update(d[1..], k, v);
    } else if d != [] {
      assert Update(d, k, v)[1..] == d[1..];
    }
  }

  /** A new key is appended at the end: insertion order is kept. */
  lemma {:induction false} UpdateNewKey(d: Dict, k: string, v: Json)
    requires k !in Keys(d)
    ensures Update(d, k, v) == d + [(k, v)]
  {
    if d != [] {
      UpdateNewKey(d[1..], k, v);
      assert d == [d[0]] + d[1..];
    }
  }

  /** Updating a dict gives a dict. */
  lemma {:induction false} UpdateKeepsDict(d: Dict, k: string, v: Json)
    requires IsDict(d)
    ensures IsDict(Update(d, k, v))
  {
    if d != [] && d[0].0 != k {
      UpdateKeepsDict(d[1..], k, v);
      KeysUpdate(d[1..], k, v);
      assert Update(d, k, v)[1..] == Update(d[1..], k, v);
    } else if d != [] {
      assert Update(d, k, v)[1..] == d[1..];
    }
  }

  /** The keys of two entry lists laid end to end. */
  lemma {:induction false} KeysAppend(d1: Dict, d2: Dict)
    ensures Keys(d1 + d2) == Keys(d1) + Keys(d2)
  {
    if d1 != [] {
      KeysAppend(d1[1..], d2);
      assert (d1 + d2)[1..] == d1[1..] + d2;
    } else {
      assert d1 + d2 == d2;
    }
  }

  /** Looking a key up in two entry lists laid end to end: the first list wins. */
  lemma {:induction false} GetAppend(d1: Dict, d2: Dict, k: string)
    ensures Get(d1 + d2, k) == if k in Keys(d1) then Get(d1, k) else Get(d2, k)
  {
    if d1 != [] {
      GetAppend(d1[1..], d2, k);
      assert (d1 + d2)[1..] == d1[1..] + d2;
    } else {
      assert d1 + d2 == d2;
    }
  }

  /** The keys of four entry lists laid end to end. */
  lemma KeysAppend4(d1: Dict, d2: Dict, d3: Dict, d4: Dict)
    ensures Keys(d1 + d2 + d3 + d4) == Keys(d1) + Keys(d2) + Keys(d3) + Keys(d4)
  {
    KeysAppend(d1, d2);
    KeysAppend(d1 + d2, d3);
    KeysAppend(d1 + d2 + d3, d4);
  }

  /** Looking a key up in four entry lists laid end to end: the first holding it wins. */
  lemma GetAppend4(d1: Dict, d2: Dict, d3: Dict, d4: Dict, k: string)
    ensures Get(d1 + d2 + d3 + d4, k)
            == if k in Keys(d1) then Get(d1, k)
               else if k in Keys(d2) then Get(d2, k)
               else if k in Keys(d3) then Get(d3, k)
               else Get(d4, k)
  {
    KeysAppend(d1, d2);
    KeysAppend(d1 + d2, d3);
    KeysAppend(d1 + d2 + d3, d4);
    GetAppend(d1, d2, k);
    GetAppend(d1 + d2, d3, k);
    GetAppend(d1 + d2 + d3, d4, k);
  }

  /** Two dicts with no key in common, laid end to end, form a dict. */
  lemma {:induction false} DisjointAppendKeepsDict(d: Dict, e: Dict)
    requires IsDict(d) && IsDict(e) && Keys(d) !! Keys(e)
    ensures IsDict(d + e)
  {
    if d == [] {
      assert d + e == e;
    } else {
      DisjointAppendKeepsDict(d[1..], e);
      assert (d + e)[1..] == d[1..] + e;
      KeysAppend(d[1..], e);
    }
  }
}
