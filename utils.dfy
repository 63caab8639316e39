/** The self-contained helpers of pyrax/utils.py: list coercion, environment lookup,
    the bounded wait loop and the ASCII part of `slugify`. */
module Utils {
  import opened Common
  import opened Text

  // ---------------------------------------------------------------------------------------
  // coerce_string_to_list

  /** The Python values `coerce_string_to_list` is given: None, a string, some other scalar,
      a list or a tuple. */
  datatype Value =
    | NoneValue
    | Str(s: string)
    | Int(i: int)
    | List(items: seq<Value>)
    | Tuple(items: seq<Value>)

  predicate IsTruthy(v: Value) {
    match v
    case NoneValue => false
    case Str(s) => s != ""
    case Int(i) => i != 0
    case List(xs) => xs != []
    case Tuple(xs) => xs != []
  }

  predicate IsSequence(v: Value) {
    v.List? || v.Tuple?
  }

  /** The elements a caller iterating over `v` sees. */
  function Elements(v: Value): seq<Value> {
    if IsSequence(v) then v.items else [v]
  }

  /** A falsy value becomes the empty list, a truthy list or tuple is returned as it is, and any
      other truthy value becomes a one-element list. */
  function CoerceStringToList(val: Value): (r: Value)
    ensures IsSequence(r)
    ensures !IsTruthy(val) ==> r == List([])
    ensures IsTruthy(val) && IsSequence(val) ==> r == val
    ensures IsTruthy(val) && !IsSequence(val) ==> r == List([val])
  {
    if IsTruthy(val) then
      if !IsSequence(val) then List([val]) else val
    else
      List([])
  }

  /** Iterating over the coerced value visits the value itself, or its elements, or nothing. */
  lemma CoerceElements(val: Value)
    ensures Elements(CoerceStringToList(val)) ==
      if !IsTruthy(val) then [] else Elements(val)
  {
  }

  /** Coercing twice is coercing once. */
  lemma CoerceIdempotent(val: Value)
    ensures CoerceStringToList(CoerceStringToList(val)) == CoerceStringToList(val)
  {
  }

  // ---------------------------------------------------------------------------------------
  // env

  /** `os.environ.get(name)` is present and non-empty. */
  predicate IsSet(environ: map<string, string>, name: string) {
    name in environ && environ[name] != ""
  }

  /** `env(*names, default=...)`: the value of the first name, in argument order, that is set to
      a non-empty value; otherwise the `default` keyword argument, or "" when none was given.
      The environment is a parameter. */
  method Env(environ: map<string, string>, names: seq<string>, default: Option<string>)
    returns (value: string)
    ensures (exists i :: 0 <= i < |names| && IsSet(environ, names[i])) ==>
      exists i :: 0 <= i < |names| && IsSet(environ, names[i]) && value == environ[names[i]] &&
        forall j :: 0 <= j < i ==> !IsSet(environ, names[j])
    ensures (forall i :: 0 <= i < |names| ==> !IsSet(environ, names[i])) ==>
      value == (if default.Some? then default.value else "")
  {
    for k := 0 to |names|
      invariant forall j :: 0 <= j < k ==> !IsSet(environ, names[j])
    {
      if IsSet(environ, names[k]) {
        return environ[names[k]];
      }
    }
    value := if default.Some? then default.value else "";
  }

  // ---------------------------------------------------------------------------------------
  // wait_until

  /** The `desired` argument: one value, or a list or tuple of values. */
  datatype Desired<V> = One(v: V) | Many(vs: seq<V>)

  /** A non-list `desired` is treated as a one-element list. */
  function DesiredValues<V>(d: Desired<V>): seq<V> {
    match d
    case One(v) => [v]
    case Many(vs) => vs
  }

  /** Round `k` reloaded the object and the attribute has a desired value. */
  predicate Hit<V(==)>(o: Option<V>, wanted: seq<V>) {
    o.Some? && o.value in wanted
  }

  /** Round `k` reloaded the object and the attribute has some other value. */
  predicate Miss<V(==)>(o: Option<V>, wanted: seq<V>) {
    o.Some? && o.value !in wanted
  }

  /** `wait_until(obj, att, desired, attempts=n)` for n > 0. `observe(k)` is what round `k`
      sees: the attribute's value after reloading the object, or None when the object can be
      neither reloaded nor fetched again through its manager. `rounds` is the number of
      reload-and-check rounds performed. */
  method WaitUntil<V(==)>(observe: nat -> Option<V>, desired: Desired<V>, attempts: nat)
    returns (r: Result<bool, Error>, rounds: nat)
    requires attempts > 0
    ensures 1 <= rounds <= attempts
    ensures forall k :: 0 <= k < rounds - 1 ==> Miss(observe(k), DesiredValues(desired))
    ensures r == Success(true) <==> Hit(observe(rounds - 1), DesiredValues(desired))
    ensures r == Success(false) <==> Miss(observe(rounds - 1), DesiredValues(desired))
    ensures r == Failure(NoReloadError) <==> observe(rounds - 1).None?
    ensures r == Success(false) ==> rounds == attempts
  {
    var wanted := DesiredValues(desired);
    var attempt := 0;
    while attempt < attempts
      invariant 0 <= attempt <= attempts
      invariant forall k :: 0 <= k < attempt ==> Miss(observe(k), wanted)
    {
      var o := observe(attempt);
      if o.None? {
        return Failure(NoReloadError), attempt + 1;
      }
      if o.value in wanted {
        return Success(true), attempt + 1;
      }
      attempt := attempt + 1;
    }
    return Success(false), attempts;
  }

  // ---------------------------------------------------------------------------------------
  // slugify, after the unicode normalisation step

  /** `\w` without the UNICODE flag. */
  predicate IsWordChar(c: char) {
    'a' <= c <= 'z' || 'A' <= c <= 'Z' || '0' <= c <= '9' || c == '_'
  }

  /** `\s` without the UNICODE flag, and what `str.strip()` removes: space, \t, \n, \v, \f, \r. */
  predicate IsSpace(c: char) {
    c == ' ' || 9 <= c as int <= 13
  }

  /** The characters `[^\w\s-]` does not match. */
  predicate IsKept(c: char) {
    IsWordChar(c) || IsSpace(c) || c == '-'
  }

  /** The characters `[-\s]+` runs are made of. */
  predicate IsSeparator(c: char) {
    c == '-' || IsSpace(c)
  }

  /** The characters a slug is made of: `[a-z0-9_-]`. */
  predicate IsSlugChar(c: char) {
    'a' <= c <= 'z' || '0' <= c <= '9' || c == '_' || c == '-'
  }

  predicate NoDoubleHyphen(s: string) {
    forall i :: 0 <= i < |s| - 1 ==> !(s[i] == '-' && s[i + 1] == '-')
  }

  /** A string slugify can produce. */
  predicate IsSlug(s: string) {
    (forall i :: 0 <= i < |s| ==> IsSlugChar(s[i])) && NoDoubleHyphen(s)
  }

  /** `.encode("ascii", "ignore")`: characters outside ASCII are dropped and every ASCII
      character is kept. */
  function AsciiOnly(s: string): (r: string)
    ensures forall i :: 0 <= i < |r| ==> r[i] as int < 128
  {
    if s == [] then []
    else if s[0] as int < 128 then [s[0]] + AsciiOnly(s[1..])
    else AsciiOnly(s[1..])
  }

  /** `re.sub(r"[^\w\s-]", "", s)`: every character that is not a word character, whitespace
      or a hyphen is removed, and every other character is kept. */
  function StripDisallowed(s: string): (r: string)
    ensures forall i :: 0 <= i < |r| ==> IsKept(r[i])
  {
    if s == [] then []
    else if IsKept(s[0]) then [s[0]] + StripDisallowed(s[1..])
    else StripDisallowed(s[1..])
  }

  /** `lstrip()`: the whitespace at the start is removed, and only that. */
  function TrimLeft(s: string): (r: string)
    ensures |r| <= |s| && r == s[|s| - |r|..]
    ensures forall i :: 0 <= i < |s| - |r| ==> IsSpace(s[i])
    ensures r == [] || !IsSpace(r[0])
  {
    if s != [] && IsSpace(s[0]) then TrimLeft(s[1..]) else s
  }

  /** `rstrip()`: the whitespace at the end is removed, and only that. */
  function TrimRight(s: string): (r: string)
    ensures |r| <= |s| && r == s[..|r|]
    ensures forall i :: |r| <= i < |s| ==> IsSpace(s[i])
    ensures r == [] || !IsSpace(r[|r| - 1])
  {
    if s != [] && IsSpace(s[|s| - 1]) then TrimRight(s[..|s| - 1]) else s
  }

  /** `str.strip()`: leading and trailing whitespace removed. */
  function Trim(s: string): (r: string)
    ensures r == [] || (!IsSpace(r[0]) && !IsSpace(r[|r| - 1]))
  {
    TrimRight(TrimLeft(s))
  }

  /** The ASCII encoding keeps exactly the ASCII characters. */
  lemma {:induction false} AsciiOnlyMembers(s: string, c: char)
    ensures c in AsciiOnly(s) <==> c in s && c as int < 128
  {
    if s != [] {
      assert s == [s[0]] + s[1..];
      AsciiOnlyMembers(s[1..], c);
    }
  }

  /** The substitution keeps exactly the word characters, whitespace and hyphens. */
  lemma {:induction false} StripDisallowedMembers(s: string, c: char)
    ensures c in StripDisallowed(s) <==> c in s && IsKept(c)
  {
    if s != [] {
      assert s == [s[0]] + s[1..];
      StripDisallowedMembers(s[1..], c);
    }
  }

  /** A character that is not in the dropped prefix `s[..k]` is in `s` exactly when it is in the
      rest. */
  lemma DropPrefixMembers(s: string, k: nat, c: char)
    requires k <= |s|
    requires forall i :: 0 <= i < k ==> s[i] != c
    ensures c in s <==> c in s[k..]
  {
    if c in s {
      var i :| 0 <= i < |s| && s[i] == c;
      assert s[k..][i - k] == c;
    }
  }

  /** The same for a dropped suffix `s[k..]`. */
  lemma DropSuffixMembers(s: string, k: nat, c: char)
    requires k <= |s|
    requires forall i :: k <= i < |s| ==> s[i] != c
    ensures c in s <==> c in s[..k]
  {
    if c in s {
      var i :| 0 <= i < |s| && s[i] == c;
      assert s[..k][i] == c;
    }
  }

  /** Stripping keeps every character that is not whitespace. */
  lemma TrimMembers(s: string, c: char)
    requires !IsSpace(c)
    ensures c in Trim(s) <==> c in s
  {
    var l := TrimLeft(s);
    DropPrefixMembers(s, |s| - |l|, c);
    DropSuffixMembers(l, |Trim(s)|, c);
  }

  /** The longest suffix of `s` that does not start with a separator; what it skips is a run of
      separators. */
  function DropSeparators(s: string): (r: string)
    ensures |r| <= |s| && r == s[|s| - |r|..]
    ensures forall i :: 0 <= i < |s| - |r| ==> IsSeparator(s[i])
    ensures r == [] || !IsSeparator(r[0])
    ensures s != [] && IsSeparator(s[0]) ==> |r| < |s|
  {
    if s != [] && IsSeparator(s[0]) then DropSeparators(s[1..]) else s
  }

  /** `re.sub(r"[-\s]+", "-", s)`: every maximal run of hyphens and whitespace becomes one hyphen. */
  function Hyphenate(s: string): string
    decreases |s|
  {
    if s == [] then []
    else if IsSeparator(s[0]) then "-" + Hyphenate(DropSeparators(s))
    else [s[0]] + Hyphenate(s[1..])
  }

  /** Collapsing the separator runs keeps every other character. */
  lemma {:induction false} HyphenateMembers(s: string, c: char)
    requires !IsSeparator(c)
    ensures c in Hyphenate(s) <==> c in s
    decreases |s|
  {
    if s != [] {
      if IsSeparator(s[0]) {
        var d := DropSeparators(s);
        DropPrefixMembers(s, |s| - |d|, c);
        HyphenateMembers(d, c);
      } else {
        assert s == [s[0]] + s[1..];
        HyphenateMembers(s[1..], c);
      }
    }
  }

  /** `slugify(value)` after NFKD normalisation: ASCII only, disallowed characters removed,
      trimmed, lower-cased, separator runs collapsed. */
  function Slugify(value: string): (r: string)
    ensures IsSlug(r)
  {
    var kept := Trim(StripDisallowed(AsciiOnly(value)));
    TrimKeeps(StripDisallowed(AsciiOnly(value)));
    var lowered := Lower(kept);
    HyphenateSlug(lowered);
    Hyphenate(lowered)
  }

  /** A character is in the lower-cased string exactly when it is the lower case of a character
      of the original. */
  lemma LowerMembers(s: string, c: char)
    ensures c in Lower(s) <==> exists d :: d in s && LowerChar(d) == c
  {
    var l := Lower(s);
    if c in l {
      var i :| 0 <= i < |l| && l[i] == c;
      assert s[i] in s && LowerChar(s[i]) == c;
    }
    if exists d :: d in s && LowerChar(d) == c {
      var d :| d in s && LowerChar(d) == c;
      var i :| 0 <= i < |s| && s[i] == d;
      assert l[i] == c;
    }
  }

  /** What survives: apart from hyphens, the slug holds exactly the lower-cased word characters
      (letters, digits, underscore) of the input. */
  lemma SlugifyKeepsWordChars(value: string, c: char)
    requires c != '-'
    ensures c in Slugify(value) <==> exists d :: d in value && IsWordChar(d) && LowerChar(d) == c
  {
    if c in Slugify(value) {
      SlugCharFromWordChar(value, c);
    }
    if exists d :: d in value && IsWordChar(d) && LowerChar(d) == c {
      var d :| d in value && IsWordChar(d) && LowerChar(d) == c;
      WordCharInSlug(value, d);
    }
  }

  /** Every word character of the input reaches the slug, lower-cased. */
  lemma WordCharInSlug(value: string, d: char)
    requires d in value && IsWordChar(d)
    ensures LowerChar(d) in Slugify(value)
  {
    var a := AsciiOnly(value);
    var k := StripDisallowed(a);
    var t := Trim(k);
    var l := Lower(t);
    AsciiOnlyMembers(value, d);
    StripDisallowedMembers(a, d);
    TrimMembers(k, d);
    LowerMembers(t, LowerChar(d));
    HyphenateMembers(l, LowerChar(d));
    SlugifyPipeline(value);
  }

  /** Every character of the slug other than a hyphen comes from a word character of the input. */
  lemma SlugCharFromWordChar(value: string, c: char)
    requires c in Slugify(value) && c != '-'
    ensures exists d :: d in value && IsWordChar(d) && LowerChar(d) == c
  {
    var a := AsciiOnly(value);
    var k := StripDisallowed(a);
    var t := Trim(k);
    var l := Lower(t);
    var r := Slugify(value);
    SlugifyPipeline(value);
    var i :| 0 <= i < |r| && r[i] == c;
    assert IsSlugChar(c);
    HyphenateMembers(l, c);
    LowerMembers(t, c);
    var d :| d in t && LowerChar(d) == c;
    TrimMembers(k, d);
    StripDisallowedMembers(a, d);
    AsciiOnlyMembers(value, d);
  }

  /** Every character of the trimmed string is one of the kept characters. */
  lemma TrimKeeps(s: string)
    requires forall i :: 0 <= i < |s| ==> IsKept(s[i])
    ensures forall i :: 0 <= i < |Trim(s)| ==> IsKept(Trim(s)[i])
  {
    var l := TrimLeft(s);
    var t := TrimRight(l);
    forall i | 0 <= i < |t|
      ensures IsKept(t[i])
    {
      assert t[i] == l[i] == s[|s| - |l| + i];
    }
  }

  /** Once lower-cased, a kept character is a slug character or whitespace. */
  predicate IsLowerKept(c: char) {
    IsSlugChar(c) || IsSpace(c)
  }

  /** Collapsing the separator runs of a lower-cased kept string yields a slug whose first
      character is a hyphen exactly when the input starts with a separator. */
  lemma {:induction false} HyphenateSlug(s: string)
    requires forall i :: 0 <= i < |s| ==> IsLowerKept(s[i])
    ensures IsSlug(Hyphenate(s))
    ensures Hyphenate(s) != [] <==> s != []
    ensures s != [] ==> (Hyphenate(s)[0] == '-' <==> IsSeparator(s[0]))
    decreases |s|
  {
    if s == [] {
    } else if IsSeparator(s[0]) {
      var rest := DropSeparators(s);
      assert forall i :: 0 <= i < |rest| ==> rest[i] == s[|s| - |rest| + i];
      HyphenateSlug(rest);
      var h := Hyphenate(rest);
      assert Hyphenate(s) == "-" + h;
      SlugCons('-', h);
    } else {
      HyphenateSlug(s[1..]);
      var h := Hyphenate(s[1..]);
      assert Hyphenate(s) == [s[0]] + h;
      SlugCons(s[0], h);
    }
  }

  /** One slug character in front of a slug gives a slug, unless it makes two hyphens. */
  lemma SlugCons(c: char, h: string)
    requires IsSlug(h) && IsSlugChar(c)
    requires c == '-' ==> h == [] || h[0] != '-'
    ensures IsSlug([c] + h)
  {
    var r := [c] + h;
    assert forall i :: 0 <= i < |h| ==> r[i + 1] == h[i];
  }

  lemma {:induction false} AsciiOnlyIdentity(s: string)
    requires forall i :: 0 <= i < |s| ==> s[i] as int < 128
    ensures AsciiOnly(s) == s
  {
    if s != [] {
      AsciiOnlyIdentity(s[1..]);
    }
  }

  lemma {:induction false} StripDisallowedIdentity(s: string)
    requires forall i :: 0 <= i < |s| ==> IsKept(s[i])
    ensures StripDisallowed(s) == s
  {
    if s != [] {
      StripDisallowedIdentity(s[1..]);
    }
  }

  /** A slug has no runs to collapse. */
  lemma {:induction false} HyphenateIdentity(s: string)
    requires IsSlug(s)
    ensures Hyphenate(s) == s
    decreases |s|
  {
    if s != [] {
      var t := s[1..];
      assert IsSlug(t) by {
        assert forall i :: 0 <= i < |t| ==> t[i] == s[i + 1];
      }
      HyphenateIdentity(t);
      if IsSeparator(s[0]) {
        assert s[0] == '-';
        assert t == [] || t[0] == s[1];
        DropSeparatorsRun([s[0]], t);
      }
      assert s == [s[0]] + t;
    }
  }

  // ---------------------------------------------------------------------------------------
  // Order and hyphen placement

  /** The word characters of `s`, in order. */
  function WordChars(s: string): string {
    if s == [] then []
    else if IsWordChar(s[0]) then [s[0]] + WordChars(s[1..])
    else WordChars(s[1..])
  }

  /** `s` without its separators, in order. */
  function NonSeparators(s: string): string {
    if s == [] then []
    else if IsSeparator(s[0]) then NonSeparators(s[1..])
    else [s[0]] + NonSeparators(s[1..])
  }

  lemma {:induction false} NonSeparatorsAppend(a: string, b: string)
    ensures NonSeparators(a + b) == NonSeparators(a) + NonSeparators(b)
  {
    if a == [] {
      assert a + b == b;
    } else {
      assert (a + b)[0] == a[0] && (a + b)[1..] == a[1..] + b;
      NonSeparatorsAppend(a[1..], b);
    }
  }

  /** The ASCII encoding works character by character, so it distributes over concatenation. */
  lemma {:induction false} AsciiOnlyAppend(a: string, b: string)
    ensures AsciiOnly(a + b) == AsciiOnly(a) + AsciiOnly(b)
  {
    if a == [] {
      assert a + b == b;
    } else {
      assert (a + b)[0] == a[0] && (a + b)[1..] == a[1..] + b;
      AsciiOnlyAppend(a[1..], b);
    }
  }

  /** So does the removal of disallowed characters. */
  lemma {:induction false} StripDisallowedAppend(a: string, b: string)
    ensures StripDisallowed(a + b) == StripDisallowed(a) + StripDisallowed(b)
  {
    if a == [] {
      assert a + b == b;
    } else {
      assert (a + b)[0] == a[0] && (a + b)[1..] == a[1..] + b;
      StripDisallowedAppend(a[1..], b);
    }
  }

  /** The ASCII encoding drops no word character and reorders nothing. */
  lemma {:induction false} AsciiOnlyWordChars(s: string)
    ensures WordChars(AsciiOnly(s)) == WordChars(s)
  {
    if s != [] {
      AsciiOnlyWordChars(s[1..]);
      if s[0] as int < 128 {
        var t := AsciiOnly(s[1..]);
        assert ([s[0]] + t)[0] == s[0] && ([s[0]] + t)[1..] == t;
      }
    }
  }

  /** Apart from whitespace and hyphens, what the substitution keeps is the word characters,
      in order. */
  lemma {:induction false} StripDisallowedOrder(s: string)
    ensures NonSeparators(StripDisallowed(s)) == WordChars(s)
  {
    if s != [] {
      StripDisallowedOrder(s[1..]);
      if IsKept(s[0]) {
        var t := StripDisallowed(s[1..]);
        assert ([s[0]] + t)[0] == s[0] && ([s[0]] + t)[1..] == t;
      }
    }
  }

  lemma {:induction false} TrimLeftOrder(s: string)
    ensures NonSeparators(TrimLeft(s)) == NonSeparators(s)
  {
    if s != [] && IsSpace(s[0]) {
      TrimLeftOrder(s[1..]);
    }
  }

  lemma {:induction false} TrimRightOrder(s: string)
    ensures NonSeparators(TrimRight(s)) == NonSeparators(s)
  {
    if s != [] && IsSpace(s[|s| - 1]) {
      var init := s[..|s| - 1];
      TrimRightOrder(init);
      assert s == init + [s[|s| - 1]];
      NonSeparatorsAppend(init, [s[|s| - 1]]);
    }
  }

  /** Stripping removes whitespace only. */
  lemma TrimOrder(s: string)
    ensures NonSeparators(Trim(s)) == NonSeparators(s)
  {
    TrimLeftOrder(s);
    TrimRightOrder(TrimLeft(s));
  }

  /** Lower-casing neither creates nor removes a separator. */
  lemma {:induction false} LowerOrder(s: string)
    ensures NonSeparators(Lower(s)) == Lower(NonSeparators(s))
  {
    if s != [] {
      LowerOrder(s[1..]);
      assert s == [s[0]] + s[1..];
      LowerAppend([s[0]], s[1..]);
      var l := Lower(s[1..]);
      assert ([LowerChar(s[0])] + l)[0] == LowerChar(s[0]);
      assert ([LowerChar(s[0])] + l)[1..] == l;
      if !IsSeparator(s[0]) {
        LowerAppend([s[0]], NonSeparators(s[1..]));
      }
    }
  }

  lemma {:induction false} DropSeparatorsOrder(s: string)
    ensures NonSeparators(DropSeparators(s)) == NonSeparators(s)
  {
    if s != [] && IsSeparator(s[0]) {
      DropSeparatorsOrder(s[1..]);
    }
  }

  /** Collapsing the runs only rewrites separators: every other character stays, in order. */
  lemma {:induction false} HyphenateOrder(s: string)
    ensures NonSeparators(Hyphenate(s)) == NonSeparators(s)
    decreases |s|
  {
    if s != [] {
      if IsSeparator(s[0]) {
        var d := DropSeparators(s);
        HyphenateOrder(d);
        DropSeparatorsOrder(s);
        NonSeparatorsAppend("-", Hyphenate(d));
      } else {
        HyphenateOrder(s[1..]);
        NonSeparatorsAppend([s[0]], Hyphenate(s[1..]));
      }
    }
  }

  /** Order: with its hyphens taken out, the slug is the input's word characters lower-cased, in
      their original order. */
  lemma SlugifyOrder(value: string)
    ensures NonSeparators(Slugify(value)) == Lower(WordChars(value))
  {
    var a := AsciiOnly(value);
    var k := StripDisallowed(a);
    var t := Trim(k);
    HyphenateOrder(Lower(t));
    LowerOrder(t);
    TrimOrder(k);
    StripDisallowedOrder(a);
    AsciiOnlyWordChars(value);
  }

  /** A run of separators in front of a non-separator is skipped whole. */
  lemma {:induction false} DropSeparatorsRun(r: string, b: string)
    requires forall i :: 0 <= i < |r| ==> IsSeparator(r[i])
    requires b == [] || !IsSeparator(b[0])
    ensures DropSeparators(r + b) == b
  {
    if r == [] {
      assert r + b == b;
    } else {
      assert (r + b)[0] == r[0] && (r + b)[1..] == r[1..] + b;
      DropSeparatorsRun(r[1..], b);
    }
  }

  /** A whole run of separators, up to the next other character, becomes one hyphen. */
  lemma HyphenateRun(r: string, b: string)
    requires r != [] && forall i :: 0 <= i < |r| ==> IsSeparator(r[i])
    requires b == [] || !IsSeparator(b[0])
    ensures Hyphenate(r + b) == "-" + Hyphenate(b)
  {
    assert (r + b)[0] == r[0];
    DropSeparatorsRun(r, b);
  }

  /** Characters that are not separators are copied unchanged. */
  lemma {:induction false} HyphenateWord(w: string, b: string)
    requires forall i :: 0 <= i < |w| ==> !IsSeparator(w[i])
    ensures Hyphenate(w + b) == w + Hyphenate(b)
    decreases |w|
  {
    if w == [] {
      assert w + b == b;
    } else {
      assert (w + b)[0] == w[0] && (w + b)[1..] == w[1..] + b;
      HyphenateWord(w[1..], b);
      assert w == [w[0]] + w[1..];
    }
  }

  /** A string of word characters and separators passes the encoding and the substitution
      unchanged. */
  lemma PlainTextKept(s: string)
    requires forall i :: 0 <= i < |s| ==> IsWordChar(s[i]) || IsSeparator(s[i])
    ensures StripDisallowed(AsciiOnly(s)) == s
  {
    forall i | 0 <= i < |s|
      ensures s[i] as int < 128 && IsKept(s[i])
    {
    }
    AsciiOnlyIdentity(s);
    StripDisallowedIdentity(s);
  }

  /** A string that neither starts nor ends with whitespace is unchanged by `strip()`. */
  lemma TrimmedUntouched(s: string)
    requires s != [] && !IsSpace(s[0]) && !IsSpace(s[|s| - 1])
    ensures Trim(s) == s
  {
    assert TrimLeft(s) == s;
  }

  /** A string of word characters and separators that starts and ends with a word character
      passes the encoding, the substitution and the stripping unchanged. */
  lemma PlainTextUntouched(s: string)
    requires s != [] && forall i :: 0 <= i < |s| ==> IsWordChar(s[i]) || IsSeparator(s[i])
    requires IsWordChar(s[0]) && IsWordChar(s[|s| - 1])
    ensures Trim(StripDisallowed(AsciiOnly(s))) == s
  {
    PlainTextKept(s);
    TrimmedUntouched(s);
  }

  /** Lower-casing leaves the separators between two words alone. */
  lemma LowerJoin(w1: string, r: string, w2: string)
    requires forall i :: 0 <= i < |r| ==> IsSeparator(r[i])
    ensures Lower(w1 + r + w2) == Lower(w1) + r + Lower(w2)
  {
    LowerAppend(w1 + r, w2);
    LowerAppend(w1, r);
    LowerIdentity(r);
  }

  /** The run between two words becomes one hyphen and the words are copied. */
  lemma HyphenateJoin(l1: string, r: string, l2: string)
    requires forall i :: 0 <= i < |l1| ==> !IsSeparator(l1[i])
    requires r != [] && forall i :: 0 <= i < |r| ==> IsSeparator(r[i])
    requires l2 != [] && forall i :: 0 <= i < |l2| ==> !IsSeparator(l2[i])
    ensures Hyphenate(l1 + r + l2) == l1 + "-" + l2
  {
    assert l1 + r + l2 == l1 + (r + l2);
    HyphenateWord(l1, r + l2);
    HyphenateRunThenWord(r, l2);
    assert l1 + ("-" + l2) == l1 + "-" + l2;
  }

  /** A run followed by a word becomes a hyphen followed by that word. */
  lemma HyphenateRunThenWord(r: string, w: string)
    requires r != [] && forall i :: 0 <= i < |r| ==> IsSeparator(r[i])
    requires w != [] && forall i :: 0 <= i < |w| ==> !IsSeparator(w[i])
    ensures Hyphenate(r + w) == "-" + w
  {
    HyphenateRun(r, w);
    HyphenateWord(w, []);
    assert w + [] == w;
  }

  /** A lower-cased word character is still a word character. */
  lemma LowerWordChar(c: char)
    requires IsWordChar(c)
    ensures IsWordChar(LowerChar(c))
  {
  }

  /** A lower-cased word has no separator. */
  lemma LowerWord(w: string)
    requires forall i :: 0 <= i < |w| ==> IsWordChar(w[i])
    ensures forall i :: 0 <= i < |Lower(w)| ==> !IsSeparator(Lower(w)[i])
  {
    forall i | 0 <= i < |w|
      ensures !IsSeparator(Lower(w)[i])
    {
      LowerWordChar(w[i]);
    }
  }

  /** Spaces become hyphens: two words separated by a run of whitespace or hyphens give the two
      words lower-cased, joined by one hyphen. */
  lemma SlugifyJoinsWords(w1: string, r: string, w2: string)
    requires w1 != [] && forall i :: 0 <= i < |w1| ==> IsWordChar(w1[i])
    requires r != [] && forall i :: 0 <= i < |r| ==> IsSeparator(r[i])
    requires w2 != [] && forall i :: 0 <= i < |w2| ==> IsWordChar(w2[i])
    ensures Slugify(w1 + r + w2) == Lower(w1) + "-" + Lower(w2)
  {
    var s := w1 + r + w2;
    forall i | 0 <= i < |s|
      ensures IsWordChar(s[i]) || IsSeparator(s[i])
    {
      if i < |w1| {
        assert s[i] == w1[i];
      } else if i < |w1| + |r| {
        assert s[i] == r[i - |w1|];
      } else {
        assert s[i] == w2[i - |w1| - |r|];
      }
    }
    assert s[0] == w1[0] && s[|s| - 1] == w2[|w2| - 1];
    PlainTextUntouched(s);
    LowerJoin(w1, r, w2);
    var l1, l2 := Lower(w1), Lower(w2);
    LowerWord(w1);
    LowerWord(w2);
    HyphenateJoin(l1, r, l2);
    SlugifyPipeline(s);
  }

  /** The pipeline of `slugify`, stage by stage. This states no property of its own: it spells
      out the body of `Slugify` so that the lemmas about it need not unfold the function. */
  lemma SlugifyPipeline(value: string)
    ensures Slugify(value) == Hyphenate(Lower(Trim(StripDisallowed(AsciiOnly(value)))))
  {
  }

  /** A slug is its own slug: every step of the pipeline leaves it unchanged. */
  lemma SlugifyIdempotent(value: string)
    ensures Slugify(Slugify(value)) == Slugify(value)
  {
    var t := Slugify(value);
    AsciiOnlyIdentity(t);
    StripDisallowedIdentity(t);
    assert TrimLeft(t) == t;
    assert Trim(t) == t;
    LowerIdentity(t);
    HyphenateIdentity(t);
  }
}
