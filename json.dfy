/** JSON request bodies as the controllers see them (`req.body`), JavaScript
    truthiness, `String.prototype.trim`, and the create-time missing-field
    filter shared by the three resource controllers. */
module Json {

  datatype Option<+T> = None | Some(value: T)

  /** A JSON value of a request body. Numbers are integers (prices and costs
      in cents). `Oid` is a string in ObjectId form, named by the store id it
      denotes; `Str` is any other string. Arrays and nested objects are not
      modelled. */
  datatype Value = Null | Bool(b: bool) | Num(n: int) | Str(s: string) | Oid(id: nat)

  /** A value JavaScript holds as a string: a `Str`, or an `Oid`, which is
      a string in ObjectId form. String paths take either as text. */
  predicate IsText(v: Value) {
    v.Str? || v.Oid?
  }

  /** The string a text value holds; for an `Oid`, its 24 hex digits. */
  function TextOf(v: Value): (t: string)
    requires IsText(v)
    ensures v.Oid? ==> |t| == 24 && IsTrimmed(t)
  {
    if v.Str? then v.s else OidText(v.id)
  }

  /** A parsed request body: key to value. An absent key is `undefined`. */
  type Payload = map<string, Value>

  /** JavaScript falsiness of a value (`!v`): null, false, 0 and "". */
  predicate Falsy(v: Value) {
    v == Null || v == Bool(false) || v == Num(0) || v == Str("")
  }

  /** `!!body[field]`: the key is there and its value is truthy. */
  predicate Present(body: Payload, field: string) {
    field in body && !Falsy(body[field])
  }

  /** `requiredFields.filter(field => !req.body[field])`. */
  function MissingFields(required: seq<string>, body: Payload): (r: seq<string>)
    ensures |r| <= |required|
    ensures forall f :: f in r <==> f in required && !Present(body, f)
  {
    if required == [] then []
    else if Present(body, required[0]) then MissingFields(required[1..], body)
    else [required[0]] + MissingFields(required[1..], body)
  }

  /** The filter keeps the list's order: fields missing from a prefix of the
      list come first. */
  lemma {:induction false} MissingFieldsConcat(a: seq<string>, b: seq<string>, body: Payload)
    ensures MissingFields(a + b, body) == MissingFields(a, body) + MissingFields(b, body)
  {
    if a == [] {
      assert a + b == b;
    } else {
      assert (a + b)[1..] == a[1..] + b;
      MissingFieldsConcat(a[1..], b, body);
    }
  }

  /** A list all of whose fields are present has nothing missing. */
  lemma NoneMissing(required: seq<string>, body: Payload)
    requires forall f :: f in required ==> Present(body, f)
    ensures MissingFields(required, body) == []
  {
    var m := MissingFields(required, body);
    assert forall i :: 0 <= i < |m| ==> m[i] in m;
  }

  /** A list the filter passes has every field present. */
  lemma PresentWhenNoneMissing(required: seq<string>, body: Payload, i: nat)
    requires MissingFields(required, body) == []
    requires i < |required|
    ensures Present(body, required[i])
  {
    assert required[i] in required;
  }

  /** When only the field at position `i` is falsy, the filter reports
      exactly that field. */
  lemma {:induction false} OnlyMissing(required: seq<string>, body: Payload, i: nat)
    requires i < |required|
    requires forall j :: 0 <= j < |required| && j != i ==> Present(body, required[j])
    requires !Present(body, required[i])
    ensures MissingFields(required, body) == [required[i]]
  {
    var rest := required[1..];
    if i == 0 {
      forall f | f in rest ensures Present(body, f) {
        var j :| 0 <= j < |rest| && rest[j] == f;
        assert f == required[j + 1];
      }
      NoneMissing(rest, body);
    } else {
      assert Present(body, required[0]);
      forall j | 0 <= j < |rest| && j != i - 1 ensures Present(body, rest[j]) {
        assert rest[j] == required[j + 1];
      }
      OnlyMissing(rest, body, i - 1);
    }
  }

  /** When exactly the fields at positions `i < j` are falsy, the filter
      reports exactly those two, in list order. */
  lemma {:induction false} OnlyTwoMissing(required: seq<string>, body: Payload, i: nat, j: nat)
    requires i < j < |required|
    requires forall k :: 0 <= k < |required| && k != i && k != j ==> Present(body, required[k])
    requires !Present(body, required[i]) && !Present(body, required[j])
    ensures MissingFields(required, body) == [required[i], required[j]]
  {
    var rest := required[1..];
    if i == 0 {
      forall k | 0 <= k < |rest| && k != j - 1 ensures Present(body, rest[k]) {
        assert rest[k] == required[k + 1];
      }
      OnlyMissing(rest, body, j - 1);
    } else {
      assert Present(body, required[0]);
      forall k | 0 <= k < |rest| && k != i - 1 && k != j - 1 ensures Present(body, rest[k]) {
        assert rest[k] == required[k + 1];
      }
      OnlyTwoMissing(rest, body, i - 1, j - 1);
    }
  }

  /** `parts.join(sep)`. */
  function Join(parts: seq<string>, sep: string): (r: string)
    ensures parts == [] ==> r == ""
    ensures |parts| == 1 ==> r == parts[0]
    ensures |parts| >= 1 ==> |parts[0]| <= |r| && r[..|parts[0]|] == parts[0]
  {
    if parts == [] then ""
    else if |parts| == 1 then parts[0]
    else parts[0] + sep + Join(parts[1..], sep)
  }

  /** Joining one more part appends the separator and that part, so the
      parts appear in order, each separated from the next by `sep`. */
  lemma {:induction false} JoinSnoc(parts: seq<string>, sep: string, x: string)
    requires parts != []
    ensures Join(parts + [x], sep) == Join(parts, sep) + sep + x
  {
    if |parts| == 1 {
      assert (parts + [x])[1..] == [x];
    } else {
      assert (parts + [x])[1..] == parts[1..] + [x];
      JoinSnoc(parts[1..], sep, x);
    }
  }

  const MissingPrefix: string := "Missing required fields: "

  /** The message of the 400 reply for missing fields. */
  function MissingMessage(fields: seq<string>): (m: string)
    ensures |m| >= |MissingPrefix| && m[..|MissingPrefix|] == MissingPrefix
    ensures m == MissingPrefix + Join(fields, ", ")
  {
    MissingPrefix + Join(fields, ", ")
  }

  /** The characters `String.prototype.trim` removes: ECMAScript WhiteSpace and
      LineTerminator. */
  predicate IsSpace(c: char) {
    c == '\t' || c == '\n' || c == '\U{000B}' || c == '\U{000C}' || c == '\r' || c == ' '
    || c == '\U{00A0}' || c == '\U{1680}' || ('\U{2000}' <= c <= '\U{200A}')
    || c == '\U{2028}' || c == '\U{2029}' || c == '\U{202F}' || c == '\U{205F}'
    || c == '\U{3000}' || c == '\U{FEFF}'
  }

  /** No whitespace at either end. */
  predicate IsTrimmed(s: string) {
    s == [] || (!IsSpace(s[0]) && !IsSpace(s[|s| - 1]))
  }

  /** `trimStart`: drop leading whitespace only. */
  function TrimStart(s: string): (r: string)
    ensures |r| <= |s| && r == s[|s| - |r|..]
    ensures r == [] || !IsSpace(r[0])
    ensures forall i :: 0 <= i < |s| - |r| ==> IsSpace(s[i])
  {
    if s != [] && IsSpace(s[0]) then TrimStart(s[1..]) else s
  }

  /** `trimEnd`: drop trailing whitespace only. */
  function TrimEnd(s: string): (r: string)
    ensures |r| <= |s| && r == s[..|r|]
    ensures r == [] || !IsSpace(r[|r| - 1])
    ensures forall i :: |r| <= i < |s| ==> IsSpace(s[i])
  {
    if s != [] && IsSpace(s[|s| - 1]) then TrimEnd(s[..|s| - 1]) else s
  }

  /** `s.trim()`, applied by every `trim: true` schema path. */
  function Trim(s: string): (r: string)
  {
    TrimEnd(TrimStart(s))
  }

  /** Trimming yields a trimmed contiguous piece of the input, and only
      whitespace is cut off. */
  lemma TrimSpec(s: string)
    ensures IsTrimmed(Trim(s))
    ensures |s| - |TrimStart(s)| + |Trim(s)| <= |s|
    ensures Trim(s) == s[|s| - |TrimStart(s)|..|s| - |TrimStart(s)| + |Trim(s)|]
    ensures Trim(s) == [] <==> forall i :: 0 <= i < |s| ==> IsSpace(s[i])
  {
    TrimEnds(s);
    TrimMiddle(s);
    TrimBlank(s);
  }

  lemma TrimEnds(s: string)
    ensures IsTrimmed(Trim(s))
  {
    var t := TrimStart(s);
    var r := TrimEnd(t);
    if r != [] {
      assert r[0] == t[0];
    }
  }

  lemma TrimMiddle(s: string)
    ensures |s| - |TrimStart(s)| + |Trim(s)| <= |s|
    ensures Trim(s) == s[|s| - |TrimStart(s)|..|s| - |TrimStart(s)| + |Trim(s)|]
  {
    var t := TrimStart(s);
    var r := TrimEnd(t);
    var k := |s| - |t|;
    assert t == s[k..];
    assert r == t[..|r|];
    assert Trim(s) == r;
    PrefixOfSuffix(s, k, |r|);
  }

  /** A prefix of a suffix is a slice. */
  lemma PrefixOfSuffix<T>(s: seq<T>, k: nat, n: nat)
    requires k + n <= |s|
    ensures s[k..][..n] == s[k..k + n]
  {
  }

  lemma TrimBlank(s: string)
    ensures Trim(s) == [] <==> forall i :: 0 <= i < |s| ==> IsSpace(s[i])
  {
    var t := TrimStart(s);
    var k := |s| - |t|;
    if TrimEnd(t) == [] {
      forall i | 0 <= i < |s| ensures IsSpace(s[i]) {
        if i >= k { assert s[i] == t[i - k]; }
      }
    } else {
      assert t != [] && !IsSpace(t[0]);
      assert s[k] == t[0];
    }
  }

  /** Trimming an already trimmed string changes nothing, so the schema's
      `trim` is idempotent. */
  lemma TrimTrimmed(s: string)
    requires IsTrimmed(s)
    ensures Trim(s) == s
  {
  }

  /** Leading and trailing whitespace never reaches a stored value. */
  lemma TrimPadding(pad1: string, s: string, pad2: string)
    requires forall i :: 0 <= i < |pad1| ==> IsSpace(pad1[i])
    requires forall i :: 0 <= i < |pad2| ==> IsSpace(pad2[i])
    requires IsTrimmed(s)
    ensures Trim(pad1 + s + pad2) == s
  {
    var all := pad1 + s + pad2;
    if s == [] {
      forall i | 0 <= i < |all| ensures IsSpace(all[i]) {
        if i >= |pad1| { assert all[i] == pad2[i - |pad1|]; }
      }
      TrimSpec(all);
    } else {
      TrimStartPadding(pad1, s + pad2);
      assert all == pad1 + (s + pad2);
      TrimEndPadding(s, pad2);
    }
  }

  lemma {:induction false} TrimStartPadding(pad: string, s: string)
    requires forall i :: 0 <= i < |pad| ==> IsSpace(pad[i])
    requires s == [] || !IsSpace(s[0])
    ensures TrimStart(pad + s) == s
  {
    if pad != [] {
      assert (pad + s)[1..] == pad[1..] + s;
      TrimStartPadding(pad[1..], s);
    } else {
      assert pad + s == s;
    }
  }

  lemma {:induction false} TrimEndPadding(s: string, pad: string)
    requires forall i :: 0 <= i < |pad| ==> IsSpace(pad[i])
    requires s == [] || !IsSpace(s[|s| - 1])
    ensures TrimEnd(s + pad) == s
  {
    if pad != [] {
      assert (s + pad)[..|s + pad| - 1] == s + pad[..|pad| - 1];
      TrimEndPadding(s, pad[..|pad| - 1]);
    } else {
      assert s + pad == s;
    }
  }

  /** `'0'`-`'9'` and `'a'`-`'f'`, the digits of an ObjectId's text. */
  predicate IsHexDigit(c: char) {
    '0' <= c <= '9' || 'a' <= c <= 'f'
  }

  /** The hex digit for `d`. */
  function HexDigit(d: nat): (c: char)
    requires d < 16
    ensures IsHexDigit(c) && !IsSpace(c)
  {
    if d < 10 then (48 + d) as char else (87 + d) as char
  }

  /** The value of a hex digit. */
  function DigitValue(c: char): (d: nat)
    requires IsHexDigit(c)
    ensures d < 16
  {
    if c <= '9' then c as int - 48 else c as int - 87
  }

  /** The `width` lowest hex digits of `n`, most significant first. */
  function Hex(n: nat, width: nat): (t: string)
    ensures |t| == width
    ensures forall i :: 0 <= i < |t| ==> IsHexDigit(t[i]) && !IsSpace(t[i])
  {
    if width == 0 then [] else Hex(n / 16, width - 1) + [HexDigit(n % 16)]
  }

  /** The number a string of hex digits denotes. */
  function HexValue(t: string): nat
    requires forall i :: 0 <= i < |t| ==> IsHexDigit(t[i])
  {
    if t == [] then 0 else HexValue(t[..|t| - 1]) * 16 + DigitValue(t[|t| - 1])
  }

  function Pow16(k: nat): (p: nat)
    ensures p >= 1
  {
    if k == 0 then 1 else 16 * Pow16(k - 1)
  }

  /** Hex digits denote the number they were written from, when it fits. */
  lemma {:induction false} HexRoundTrip(n: nat, width: nat)
    requires n < Pow16(width)
    ensures HexValue(Hex(n, width)) == n
  {
    if width > 0 {
      var t := Hex(n, width);
      assert t[..|t| - 1] == Hex(n / 16, width - 1);
      assert n / 16 < Pow16(width - 1);
      HexRoundTrip(n / 16, width - 1);
      assert DigitValue(HexDigit(n % 16)) == n % 16;
    }
  }

  /** The text of an ObjectId: its 24 hex digits. */
  function OidText(id: nat): (t: string)
    ensures |t| == 24 && IsTrimmed(t)
    ensures forall i :: 0 <= i < |t| ==> IsHexDigit(t[i])
  {
    Hex(id, 24)
  }

  /** An ObjectId's text denotes its id. */
  lemma OidTextRoundTrip(id: nat)
    requires id < Pow16(24)
    ensures HexValue(OidText(id)) == id
  {
    HexRoundTrip(id, 24);
  }
}
