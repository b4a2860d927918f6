/**
 * The physical key scheme of the S3 remote cache.
 *
 * A logical key `key` of the cache namespace `cacheId` is stored under
 *     "pt2:" + cacheId + "::" + key + ":c" + str(version)
 * The cache builds this string in two steps: an f-string produces a
 * template in which the logical key is the replacement field `{key}`, and
 * `str.format(key=...)` fills it in. Both steps are modelled here, together
 * with the small part of Python's `str.format` that the template exercises.
 */
module KeyScheme {
  import opened Wrappers

  /** The version embedded in every physical key. */
  const Version: nat := 1

  // ---------------------------------------------------------------------
  // Decimal rendering of the version (Python's str() on a non-negative int)
  // ---------------------------------------------------------------------

  predicate IsDigit(c: char) { '0' <= c <= '9' }

  predicate AllDigits(s: string) { forall i :: 0 <= i < |s| ==> IsDigit(s[i]) }

  function DigitChar(d: nat): (c: char)
    requires d < 10
    ensures IsDigit(c) && DigitValue(c) == d
  {
    "0123456789"[d]
  }

  function DigitValue(c: char): nat
    requires IsDigit(c)
  {
    (c as int) - ('0' as int)
  }

  /** The decimal digits of `n`, most significant first, without leading zeros. */
  function DecimalString(n: nat): (s: string)
    ensures |s| >= 1 && AllDigits(s)
    ensures n < 10 <==> |s| == 1
    ensures s[0] == '0' <==> n == 0
  {
    if n < 10 then [DigitChar(n)] else DecimalString(n / 10) + [DigitChar(n % 10)]
  }

  /** The number a string of decimal digits denotes (Python's int() on digits). */
  function DecimalValue(s: string): nat
    requires AllDigits(s)
  {
    if s == [] then 0 else DecimalValue(s[..|s| - 1]) * 10 + DigitValue(s[|s| - 1])
  }

  /** Reading back the rendering of a number gives that number. */
  lemma {:induction false} DecimalRoundTrip(n: nat)
    ensures DecimalValue(DecimalString(n)) == n
  {
    var s := DecimalString(n);
    if n < 10 {
      assert s[..|s| - 1] == [];
    } else {
      assert s[..|s| - 1] == DecimalString(n / 10);
      DecimalRoundTrip(n / 10);
    }
  }

  /** Distinct versions are rendered as distinct strings. */
  lemma DecimalInjective(m: nat, n: nat)
    requires m != n
    ensures DecimalString(m) != DecimalString(n)
  {
    DecimalRoundTrip(m);
    DecimalRoundTrip(n);
  }

  // ---------------------------------------------------------------------
  // The physical key
  // ---------------------------------------------------------------------

  /** The part of a physical key in front of the logical key. */
  function KeyPrefix(cacheId: string): string { "pt2:" + cacheId + "::" }

  /** The part of a physical key behind the logical key. */
  function KeySuffix(version: nat): string { ":c" + DecimalString(version) }

  /** The physical key under which `key` of namespace `cacheId` is stored. */
  function PhysicalKey(cacheId: string, key: string, version: nat): (r: string)
    ensures |r| == |KeyPrefix(cacheId)| + |key| + |KeySuffix(version)|
    ensures r[..|KeyPrefix(cacheId)|] == KeyPrefix(cacheId)
    ensures r[|r| - |KeySuffix(version)|..] == KeySuffix(version)
    ensures r[|KeyPrefix(cacheId)|..|r| - |KeySuffix(version)|] == key
  {
    KeyPrefix(cacheId) + key + KeySuffix(version)
  }

  /**
   * The inverse of PhysicalKey for a fixed namespace and version: the
   * logical key a physical key stands for, or None when it is not a key of
   * that namespace and version.
   */
  function LogicalKey(cacheId: string, version: nat, physical: string): Option<string>
  {
    var pre, suf := KeyPrefix(cacheId), KeySuffix(version);
    if |physical| >= |pre| + |suf| && physical[..|pre|] == pre && physical[|physical| - |suf|..] == suf
    then Some(physical[|pre|..|physical| - |suf|])
    else None
  }

  /** Every physical key names exactly its logical key, and nothing else does. */
  lemma {:induction false} LogicalKeyRoundTrip(cacheId: string, version: nat, key: string, physical: string)
    ensures LogicalKey(cacheId, version, PhysicalKey(cacheId, key, version)) == Some(key)
    ensures LogicalKey(cacheId, version, physical) == Some(key) ==> physical == PhysicalKey(cacheId, key, version)
  {
    var pre, suf := KeyPrefix(cacheId), KeySuffix(version);
    var p := PhysicalKey(cacheId, key, version);
    assert p[..|pre|] == pre;
    assert p[|p| - |suf|..] == suf;
    assert p[|pre|..|p| - |suf|] == key;
    if LogicalKey(cacheId, version, physical) == Some(key) {
      assert physical == physical[..|pre|] + physical[|pre|..|physical| - |suf|] + physical[|physical| - |suf|..];
    }
  }

  /** For a fixed namespace and version, distinct logical keys never share a physical key. */
  lemma KeyInjective(cacheId: string, version: nat, key1: string, key2: string)
    requires PhysicalKey(cacheId, key1, version) == PhysicalKey(cacheId, key2, version)
    ensures key1 == key2
  {
    LogicalKeyRoundTrip(cacheId, version, key1, "");
    LogicalKeyRoundTrip(cacheId, version, key2, "");
  }

  /**
   * Version isolation: the key spaces of two versions are disjoint, whatever
   * the namespaces and logical keys. The suffix ":c" + digits ends every key,
   * so the shorter rendering puts a 'c' where the longer one has a digit.
   */
  lemma VersionsDisjoint(cacheId1: string, key1: string, v1: nat, cacheId2: string, key2: string, v2: nat)
    requires v1 != v2
    ensures PhysicalKey(cacheId1, key1, v1) != PhysicalKey(cacheId2, key2, v2)
  {
    var p1, p2 := PhysicalKey(cacheId1, key1, v1), PhysicalKey(cacheId2, key2, v2);
    var d1, d2 := DecimalString(v1), DecimalString(v2);
    assert p1[|p1| - |d1|..] == d1;
    assert p2[|p2| - |d2|..] == d2;
    if |d1| == |d2| {
      DecimalInjective(v1, v2);
    } else if |d1| < |d2| {
      assert p1[|p1| - |d1| - 1] == 'c';
      assert IsDigit(p2[|p2| - |d1| - 1]) by {
        assert p2[|p2| - |d1| - 1] == d2[|d2| - |d1| - 1];
      }
    } else {
      assert p2[|p2| - |d2| - 1] == 'c';
      assert IsDigit(p1[|p1| - |d2| - 1]) by {
        assert p1[|p1| - |d2| - 1] == d1[|d1| - |d2| - 1];
      }
    }
  }

  /**
   * Namespaces are not separated: the separator "::" may occur inside a
   * namespace or a logical key, so two namespaces can share a physical key.
   */
  lemma NamespacesMayCollide()
    ensures PhysicalKey("a", "::b", Version) == PhysicalKey("a::", "b", Version)
  {
  }

  // ---------------------------------------------------------------------
  // The key template and Python's str.format with the one argument `key`
  // ---------------------------------------------------------------------

  /** How `str.format` fails on a malformed template. */
  datatype FormatError =
    | SingleCloseBrace        // a '}' that is not doubled
    | UnterminatedField       // a '{' with no '}' after it
    | UnknownField(name: string)  // a replacement field other than {key}

  predicate IsBrace(c: char) { c == '{' || c == '}' }

  predicate NoBraces(s: string) { forall i :: 0 <= i < |s| ==> !IsBrace(s[i]) }

  /** The first position of `c` in `s`, if any. */
  function IndexOf(s: string, c: char): (r: Option<nat>)
    ensures r.Some? ==> r.value < |s| && s[r.value] == c && c !in s[..r.value]
    ensures r.None? ==> c !in s
  {
    if s == [] then None
    else if s[0] == c then Some(0)
    else match IndexOf(s[1..], c)
      case None => None
      case Some(j) => assert s[..j + 1] == [s[0]] + s[1..][..j]; Some(j + 1)
  }

  /** Prefixes a successful result with `p` and passes an error through. */
  function Prepend(p: string, r: Result<string, FormatError>): Result<string, FormatError>
  {
    match r
    case Ok(s) => Ok(p + s)
    case Err(e) => Err(e)
  }

  /**
   * `template.format(key=key)`: "{{" and "}}" stand for one brace, "{key}"
   * for the argument, any other replacement field and any lone brace are
   * errors.
   */
  function Format(template: string, key: string): Result<string, FormatError>
    decreases |template|
  {
    if template == [] then Ok([])
    else if template[0] == '{' then
      if |template| >= 2 && template[1] == '{' then Prepend("{", Format(template[2..], key))
      else match IndexOf(template[1..], '}')
        case None => Err(UnterminatedField)
        case Some(j) =>
          var name := template[1..j + 1];
          if name == "key" then Prepend(key, Format(template[j + 2..], key))
          else Err(UnknownField(name))
    else if template[0] == '}' then
      if |template| >= 2 && template[1] == '}' then Prepend("}", Format(template[2..], key))
      else Err(SingleCloseBrace)
    else Prepend([template[0]], Format(template[1..], key))
  }

  /** The template as the f-string of the source writes it: the namespace spliced in as is. */
  function AsWrittenTemplate(cacheId: string, version: nat): string
  {
    "pt2:" + cacheId + "::{key}:c" + DecimalString(version)
  }

  /** Doubles every brace, so that `str.format` reads the string literally. */
  function Escape(s: string): (r: string)
    ensures NoBraces(s) ==> r == s
  {
    if s == [] then []
    else (if IsBrace(s[0]) then [s[0], s[0]] else [s[0]]) + Escape(s[1..])
  }

  /**
   * The template with the namespace escaped: the template line 96 evidently
   * intends. It is the source's template whenever the namespace has no braces.
   */
  function KeyTemplate(cacheId: string, version: nat): (r: string)
    ensures NoBraces(cacheId) ==> r == AsWrittenTemplate(cacheId, version)
  {
    "pt2:" + Escape(cacheId) + "::{key}:c" + DecimalString(version)
  }

  lemma PrependEmpty(r: Result<string, FormatError>)
    ensures Prepend([], r) == r
  {
    if r.Ok? {
      assert [] + r.value == r.value;
    }
  }

  lemma PrependPrepend(p: string, q: string, r: Result<string, FormatError>)
    ensures Prepend(p, Prepend(q, r)) == Prepend(p + q, r)
  {
    if r.Ok? {
      assert p + (q + r.value) == (p + q) + r.value;
    }
  }

  /** Text without braces is copied through unchanged. */
  lemma {:induction false} FormatLiteral(lit: string, rest: string, key: string)
    requires NoBraces(lit)
    ensures Format(lit + rest, key) == Prepend(lit, Format(rest, key))
  {
    if lit == [] {
      assert lit + rest == rest;
      PrependEmpty(Format(rest, key));
    } else {
      assert (lit + rest)[1..] == lit[1..] + rest;
      FormatLiteral(lit[1..], rest, key);
      PrependPrepend([lit[0]], lit[1..], Format(rest, key));
      assert [lit[0]] + lit[1..] == lit;
    }
  }

  /** An escaped string reads back as the original, braces included. */
  lemma {:induction false} FormatEscaped(s: string, rest: string, key: string)
    ensures Format(Escape(s) + rest, key) == Prepend(s, Format(rest, key))
  {
    if s == [] {
      assert Escape(s) + rest == rest;
      PrependEmpty(Format(rest, key));
    } else {
      var head := if IsBrace(s[0]) then [s[0], s[0]] else [s[0]];
      var t := Escape(s) + rest;
      assert t == head + (Escape(s[1..]) + rest);
      assert t[|head|..] == Escape(s[1..]) + rest;
      FormatEscaped(s[1..], rest, key);
      PrependPrepend([s[0]], s[1..], Format(rest, key));
      assert [s[0]] + s[1..] == s;
    }
  }

  /** The replacement field {key} is replaced by the argument. */
  lemma FormatField(rest: string, key: string)
    ensures Format("{key}" + rest, key) == Prepend(key, Format(rest, key))
  {
    var t := "{key}" + rest;
    assert t[1..] == "key}" + rest;
    assert t[1..][..3] == "key";
    assert IndexOf(t[1..], '}') == Some(3) by {
      assert t[1..][0] != '}' && t[1..][1..][0] != '}' && t[1..][2..][0] != '}';
      assert t[1..][3..][0] == '}';
      assert t[1..][1..][1..] == t[1..][2..];
      assert t[1..][2..][1..] == t[1..][3..];
    }
    assert t[1..4] == "key";
    assert t[5..] == rest;
  }

  /** The version suffix ":c<digits>" holds no braces. */
  lemma SuffixNoBraces(version: nat)
    ensures NoBraces(KeySuffix(version))
  {
    var d := DecimalString(version);
    forall i | 0 <= i < |KeySuffix(version)|
      ensures !IsBrace(KeySuffix(version)[i])
    {
      if i >= 2 {
        assert KeySuffix(version)[i] == d[i - 2];
        assert IsDigit(d[i - 2]);
      }
    }
  }

  /** The version suffix is copied through unchanged. */
  lemma FormatSuffix(version: nat, key: string)
    ensures Format(KeySuffix(version), key) == Ok(KeySuffix(version))
  {
    var suffix := KeySuffix(version);
    SuffixNoBraces(version);
    FormatLiteral(suffix, [], key);
    assert suffix + [] == suffix;
  }

  /** The tail of every template, "::{key}:c<version>", becomes the tail of the physical key. */
  lemma FormatTail(version: nat, key: string)
    ensures Format("::{key}" + KeySuffix(version), key) == Ok("::" + key + KeySuffix(version))
  {
    var suffix := KeySuffix(version);
    FormatSuffix(version, key);
    FormatField(suffix, key);
    assert Format("{key}" + suffix, key) == Ok(key + suffix);
    assert NoBraces("::");
    FormatLiteral("::", "{key}" + suffix, key);
    assert "::{key}" + suffix == "::" + ("{key}" + suffix);
    assert "::" + (key + suffix) == "::" + key + suffix;
  }

  /** Filling in the escaped key template yields exactly the physical key, for every namespace. */
  lemma FormatKeyTemplate(cacheId: string, version: nat, key: string)
    ensures Format(KeyTemplate(cacheId, version), key) == Ok(PhysicalKey(cacheId, key, version))
  {
    var suffix := KeySuffix(version);
    var tail := "::{key}" + suffix;
    var escaped := Escape(cacheId);
    FormatTail(version, key);
    var fTail := Format(tail, key);
    assert fTail == Ok("::" + key + suffix);
    assert KeyTemplate(cacheId, version) == "pt2:" + (escaped + tail);
    FormatEscaped(cacheId, tail, key);
    var fBody := Format(escaped + tail, key);
    assert fBody == Ok(cacheId + ("::" + key + suffix));
    assert NoBraces("pt2:");
    FormatLiteral("pt2:", escaped + tail, key);
    assert Format("pt2:" + (escaped + tail), key) == Ok("pt2:" + (cacheId + ("::" + key + suffix)));
    assert "pt2:" + (cacheId + ("::" + key + suffix)) == KeyPrefix(cacheId) + key + suffix;
  }

  /** For a namespace without braces, filling in the source's template yields exactly the physical key. */
  lemma FormatAsWritten(cacheId: string, version: nat, key: string)
    requires NoBraces(cacheId)
    ensures Format(AsWrittenTemplate(cacheId, version), key) == Ok(PhysicalKey(cacheId, key, version))
  {
    FormatKeyTemplate(cacheId, version, key);
  }

  /**
   * A namespace "{key}" is read as a replacement field: the source's template
   * then gives the physical key of namespace `key`, without raising, for
   * every key: the argument substituted for the field is not read again.
   */
  lemma AsWrittenSubstitutes(key: string)
    ensures Format(AsWrittenTemplate("{key}", Version), key) == Ok(PhysicalKey(key, key, Version))
  {
    var tail := "::{key}" + KeySuffix(Version);
    FormatTail(Version, key);
    assert AsWrittenTemplate("{key}", Version) == "pt2:" + ("{key}" + tail);
    FormatField(tail, key);
    assert NoBraces("pt2:");
    FormatLiteral("pt2:", "{key}" + tail, key);
    assert "pt2:" + (key + ("::" + key + KeySuffix(Version))) == PhysicalKey(key, key, Version);
  }

  /** A namespace holding a lone '}' makes every formatting of the source's template raise. */
  lemma AsWrittenRejectsBrace(key: string)
    ensures Format(AsWrittenTemplate("}", Version), key) == Err(SingleCloseBrace)
  {
    var rest := "}::{key}:c" + DecimalString(Version);
    assert AsWrittenTemplate("}", Version) == "pt2:" + rest;
    FormatLiteral("pt2:", rest, key);
    assert rest[1] == ':';
  }
}
