/**
 * Ruby data as the library sees it: nil, booleans, integers, strings,
 * symbols, arrays, hashes (ordered key/value pairs, as a Ruby Hash keeps
 * insertion order) and opaque objects, together with the handful of core
 * methods the library relies on (truthiness, Hash#[], Hash#merge!,
 * Hash#delete, to_s, inspect, to_i, String#[0, n], Array#join, Kernel#Array).
 */
module RubyValues {

  datatype Option<+T> = None | Some(value: T)

  /** A Ruby exception: its class name, its message, and whether it is a
      StandardError (the only kind a bare `rescue` catches). */
  datatype Exception = Exception(className: string, message: string, standard: bool)

  /** The value of an expression that either returns or raises. */
  datatype Result<+T> = Ok(value: T) | Err(error: Exception) {
    predicate IsFailure() { Err? }
    function PropagateFailure<U>(): Result<U>
      requires Err?
    {
      Err(error)
    }
    function Extract(): T
      requires Ok?
    {
      value
    }
  }

  datatype Value =
    | Nil
    | Bool(b: bool)
    | Int(i: int)
    | Str(s: string)
    | Sym(name: string)
    | List(items: seq<Value>)
    | Hash(entries: seq<(Value, Value)>)
    | Object(className: string)

  /** Ruby truthiness: everything except nil and false. */
  predicate Truthy(v: Value) {
    !(v.Nil? || v == Bool(false))
  }

  function RuntimeError(message: string): Exception {
    Exception("RuntimeError", message, true)
  }

  function NoMethodError(name: string, receiver: Value): Exception {
    Exception("NoMethodError", "undefined method `" + name + "' for " + Inspect(receiver) + ":" + ClassName(receiver), true)
  }

  // ---------------------------------------------------------------------
  // Hashes

  /** Hash#[] restricted to presence: the value bound to `key`, if any. */
  function Get(entries: seq<(Value, Value)>, key: Value): (r: Option<Value>)
    ensures r.Some? <==> exists i :: 0 <= i < |entries| && entries[i].0 == key
    ensures r.Some? ==> exists i :: 0 <= i < |entries| && entries[i] == (key, r.value)
  {
    if entries == [] then None
    else if entries[0].0 == key then Some(entries[0].1)
    else
      var r := Get(entries[1..], key);
      assert forall i :: 1 <= i < |entries| ==> entries[i] == entries[1..][i - 1];
      r
  }

  /** No two pairs share a key, as in a hash. */
  predicate DistinctKeys(entries: seq<(Value, Value)>) {
    forall i, j :: 0 <= i < j < |entries| ==> entries[i].0 != entries[j].0
  }

  /** Hash#[]: nil for a missing key. */
  function Fetch(entries: seq<(Value, Value)>, key: Value): Value {
    match Get(entries, key)
    case Some(v) => v
    case None => Nil
  }

  /** Hash#merge! with a single pair: an existing key keeps its position and
      takes the new value, a new key is appended. */
  function Put(entries: seq<(Value, Value)>, key: Value, value: Value): (r: seq<(Value, Value)>)
    ensures Get(r, key) == Some(value)
    ensures forall k :: k != key ==> Get(r, k) == Get(entries, k)
    ensures forall i :: 0 <= i < |r| ==> r[i] in entries || r[i] == (key, value)
    ensures |r| <= |entries| + 1
  {
    if entries == [] then [(key, value)]
    else if entries[0].0 == key then [(key, value)] + entries[1..]
    else [entries[0]] + Put(entries[1..], key, value)
  }

  /** Hash#delete: the pairs without `key`. */
  function Delete(entries: seq<(Value, Value)>, key: Value): (r: seq<(Value, Value)>)
    ensures Get(r, key) == None
    ensures forall k :: k != key ==> Get(r, k) == Get(entries, k)
    ensures forall i :: 0 <= i < |r| ==> r[i] in entries
  {
    if entries == [] then []
    else if entries[0].0 == key then Delete(entries[1..], key)
    else [entries[0]] + Delete(entries[1..], key)
  }

  /** The binding the last pair with `key` makes. */
  function GetLast(pairs: seq<(Value, Value)>, key: Value): Option<Value>
    decreases |pairs|
  {
    if pairs == [] then None
    else if pairs[|pairs| - 1].0 == key then Some(pairs[|pairs| - 1].1)
    else GetLast(pairs[..|pairs| - 1], key)
  }

  /** Hash#merge! with a hash: its pairs merged in one by one, so the last
      pair with a key decides its value. */
  function Merge(entries: seq<(Value, Value)>, other: seq<(Value, Value)>): (r: seq<(Value, Value)>)
    ensures forall k :: Get(r, k) == if GetLast(other, k).Some? then GetLast(other, k) else Get(entries, k)
    decreases |other|
  {
    if other == [] then entries
    else
      var last := other[|other| - 1];
      Put(Merge(entries, other[..|other| - 1]), last.0, last.1)
  }

  /** Kernel#Array: nil becomes [], an array stays, a hash becomes its pairs,
      anything else is wrapped. */
  function ArrayOf(v: Value): (r: seq<Value>)
    ensures v.Nil? ==> r == []
    ensures v.List? ==> r == v.items
    ensures v.Hash? ==> |r| == |v.entries| && forall i :: 0 <= i < |r| ==> r[i] == List([v.entries[i].0, v.entries[i].1])
    ensures !v.Nil? && !v.List? && !v.Hash? ==> r == [v]
  {
    match v
    case Nil => []
    case List(items) => items
    case Hash(entries) => seq(|entries|, i requires 0 <= i < |entries| => List([entries[i].0, entries[i].1]))
    case _ => [v]
  }

  // ---------------------------------------------------------------------
  // Strings

  predicate IsDigit(c: char) { '0' <= c <= '9' }
  predicate IsUpper(c: char) { 'A' <= c <= 'Z' }
  predicate IsLower(c: char) { 'a' <= c <= 'z' }

  /** Regexp \w on an ASCII string. */
  predicate IsWordChar(c: char) { IsDigit(c) || IsUpper(c) || IsLower(c) || c == '_' }

  /** String#upcase and String#downcase on one ASCII character. */
  function Upcase(c: char): (r: char)
    ensures IsLower(c) ==> IsUpper(r)
    ensures !IsLower(c) ==> r == c
  {
    if IsLower(c) then (c as int - 32) as char else c
  }

  function Downcase(c: char): (r: char)
    ensures IsUpper(c) ==> IsLower(r)
    ensures !IsUpper(c) ==> r == c
  {
    if IsUpper(c) then (c as int + 32) as char else c
  }

  /** String#[0, n]: the first n characters, or the whole string if shorter. */
  function Prefix(s: string, n: nat): (r: string)
    ensures |r| == if |s| <= n then |s| else n
    ensures r == s[..|r|]
  {
    if |s| <= n then s else s[..n]
  }

  /** Array#join over strings. */
  function Join(parts: seq<string>, separator: string): string {
    if parts == [] then ""
    else if |parts| == 1 then parts[0]
    else parts[0] + separator + Join(parts[1..], separator)
  }

  /** Integer#to_s. */
  function Decimal(i: int): string {
    if i < 0 then "-" + Digits(-i) else Digits(i)
  }

  function DigitChar(d: nat): (c: char)
    requires d < 10
    ensures IsDigit(c)
  {
    ('0' as int + d) as char
  }

  function Digits(n: nat): (r: string)
    ensures |r| > 0
    ensures forall i :: 0 <= i < |r| ==> IsDigit(r[i])
    decreases n
  {
    if n < 10 then [DigitChar(n)] else Digits(n / 10) + [DigitChar(n % 10)]
  }

  /** The white space String#to_i skips before a number. */
  predicate IsSpace(c: char) {
    c == ' ' || c == '\t' || c == '\n' || c == '\U{B}' || c == '\U{C}' || c == '\r'
  }

  /** The length of the white space a string starts with. */
  function SkipSpaces(s: string): (i: nat)
    ensures i <= |s|
    ensures forall j :: 0 <= j < i ==> IsSpace(s[j])
    ensures i < |s| ==> !IsSpace(s[i])
  {
    if s != [] && IsSpace(s[0]) then 1 + SkipSpaces(s[1..]) else 0
  }

  /** The digits of the decimal number a string starts with; an underscore
      between two digits is dropped, any other character ends the number. */
  function LeadingDigits(s: string): (r: string)
    ensures |r| <= |s|
    ensures forall i :: 0 <= i < |r| ==> IsDigit(r[i])
    ensures |r| > 0 <==> |s| > 0 && IsDigit(s[0])
    ensures '_' !in s ==> r == s[..|r|] && (|r| < |s| ==> !IsDigit(s[|r|]))
  {
    if s != [] && IsDigit(s[0]) then
      if |s| > 2 && s[1] == '_' && IsDigit(s[2]) then [s[0]] + LeadingDigits(s[2..])
      else
        var rest := LeadingDigits(s[1..]);
        assert s[..|rest| + 1] == [s[0]] + s[1..][..|rest|];
        [s[0]] + rest
    else []
  }

  /** The number a string of decimal digits denotes. */
  function DigitsValue(ds: string): nat
    requires forall i :: 0 <= i < |ds| ==> IsDigit(ds[i])
  {
    if ds == [] then 0
    else
      var last := ds[|ds| - 1];
      assert IsDigit(last);
      DigitsValue(ds[..|ds| - 1]) * 10 + (last as int - '0' as int)
  }

  /** The name of a value's class, as Object#class.to_s prints it. */
  function ClassName(v: Value): string {
    match v
    case Nil => "NilClass"
    case Bool(b) => if b then "TrueClass" else "FalseClass"
    case Int(_) => "Integer"
    case Str(_) => "String"
    case Sym(_) => "Symbol"
    case List(_) => "Array"
    case Hash(_) => "Hash"
    case Object(c) => c
  }

  /** String#inspect, escaping the quote and the backslash only. */
  function Quote(s: string): string {
    "\"" + Escape(s) + "\""
  }

  function Escape(s: string): string {
    if s == [] then ""
    else (if s[0] == '"' || s[0] == '\\' then ['\\', s[0]] else [s[0]]) + Escape(s[1..])
  }

  /** Object#inspect. */
  function Inspect(v: Value): string
    decreases v
  {
    match v
    case Nil => "nil"
    case Bool(b) => if b then "true" else "false"
    case Int(i) => Decimal(i)
    case Str(s) => Quote(s)
    case Sym(n) => ":" + n
    case List(items) =>
      "[" + Join(seq(|items|, i requires 0 <= i < |items| => Inspect(items[i])), ", ") + "]"
    case Hash(entries) =>
      "{" + Join(seq(|entries|, i requires 0 <= i < |entries| =>
                       assert entries[i] < v;
                       Inspect(entries[i].0) + "=>" + Inspect(entries[i].1)), ", ") + "}"
    case Object(c) => "#<" + c + ">"
  }

  /** Object#to_s. */
  function ToS(v: Value): (r: string)
    ensures v.Str? ==> r == v.s
    ensures v.Sym? ==> r == v.name
    ensures v.Nil? ==> r == ""
  {
    match v
    case Nil => ""
    case Bool(b) => if b then "true" else "false"
    case Int(i) => Decimal(i)
    case Str(s) => s
    case Sym(n) => n
    case List(_) => Inspect(v)
    case Hash(_) => Inspect(v)
    case Object(c) => "#<" + c + ">"
  }

  /** The number a string gives once its white space is skipped: the
      leading digits, negated after a minus sign. */
  function SignedNumber(t: string): int {
    if t != [] && (t[0] == '-' || t[0] == '+') then
      var magnitude: int := DigitsValue(LeadingDigits(t[1..]));
      if t[0] == '-' then -magnitude else magnitude
    else DigitsValue(LeadingDigits(t))
  }

  /** #to_i on the values that can reach it: an integer is kept, nil is 0,
      a string gives the decimal number after its leading white space and
      an optional sign (0 when there is none); every other class has no
      to_i. */
  function ToI(v: Value): (r: Result<int>)
    ensures v.Int? ==> r == Ok(v.i)
    ensures v.Nil? ==> r == Ok(0)
    ensures v.Str? ==> r.Ok?
    ensures v.Str? ==> var t := v.s[SkipSpaces(v.s)..];
      (|t| == 0 || !(IsDigit(t[0]) || t[0] == '-' || t[0] == '+')) ==> r == Ok(0)
    ensures v.Str? ==> var t := v.s[SkipSpaces(v.s)..];
      |t| > 0 && t[0] != '-' ==> r.value >= 0
    ensures (v.Bool? || v.Sym? || v.List? || v.Hash? || v.Object?) ==> r.Err?
  {
    match v
    case Int(i) => Ok(i)
    case Str(s) => Ok(SignedNumber(s[SkipSpaces(s)..]))
    case Nil => Ok(0)
    case _ => Err(NoMethodError("to_i", v))
  }

  /** Array#join, which joins nested arrays recursively with the same
      separator and converts every other element with to_s. */
  function JoinValue(v: Value, separator: string): string
    decreases v, Width(v)
  {
    match v
    case List(items) => JoinItems(v, 0, separator)
    case _ => ToS(v)
  }

  function Width(v: Value): nat {
    if v.List? then |v.items| + 1 else 0
  }

  /** The elements of the array `v` from index `from` on, joined. */
  function JoinItems(v: Value, from: nat, separator: string): string
    requires v.List? && from <= |v.items|
    decreases v, |v.items| - from
  {
    if from == |v.items| then ""
    else if from + 1 == |v.items| then JoinValue(v.items[from], separator)
    else JoinValue(v.items[from], separator) + separator + JoinItems(v, from + 1, separator)
  }

  // ---------------------------------------------------------------------
  // Properties

  lemma {:induction false} AllDigitsLead(s: string)
    requires forall i :: 0 <= i < |s| ==> IsDigit(s[i])
    ensures LeadingDigits(s) == s
  {
    if s != [] {
      AllDigitsLead(s[1..]);
    }
  }

  lemma {:induction false} DigitsValueOfDigits(n: nat)
    ensures DigitsValue(Digits(n)) == n
    decreases n
  {
    if n >= 10 {
      var ds := Digits(n);
      assert ds == Digits(n / 10) + [DigitChar(n % 10)];
      assert ds[..|ds| - 1] == Digits(n / 10);
      DigitsValueOfDigits(n / 10);
    }
  }

  /** String#to_i reads back what Integer#to_s wrote, negative numbers
      included, so it reads back every count of seconds the library
      forwards to a timer. */
  lemma DecimalRoundTrip(i: int)
    ensures ToI(Str(Decimal(i))) == Ok(i)
  {
    var n := if i < 0 then -i else i;
    DigitsNumber(n);
    if i < 0 {
      NegatedDigits(Digits(n));
    }
  }

  /** The decimal digits of a count, read as a number. */
  lemma DigitsNumber(n: nat)
    ensures SkipSpaces(Digits(n)) == 0
    ensures SignedNumber(Digits(n)) == n
  {
    var ds := Digits(n);
    assert !IsSpace(ds[0]);
    AllDigitsLead(ds);
    DigitsValueOfDigits(n);
  }

  /** A minus sign before digits, read as a number. */
  lemma NegatedDigits(ds: string)
    requires |ds| > 0 && IsDigit(ds[0])
    ensures SkipSpaces("-" + ds) == 0
    ensures SignedNumber("-" + ds) == -SignedNumber(ds)
  {
    var t := "-" + ds;
    assert t[0] == '-' && t[1..] == ds;
  }

  /** String#to_i skips the white space a string starts with. */
  lemma SpaceSkipped(c: char, s: string)
    requires IsSpace(c)
    ensures ToI(Str([c] + s)) == ToI(Str(s))
  {
    assert ([c] + s)[1..] == s;
    assert SkipSpaces([c] + s) == 1 + SkipSpaces(s);
    assert ([c] + s)[SkipSpaces([c] + s)..] == s[SkipSpaces(s)..];
  }

  /** A minus sign negates the number after it, and a plus sign keeps it. */
  lemma SignApplied(sign: char, s: string)
    requires (sign == '-' || sign == '+') && |s| > 0 && IsDigit(s[0])
    ensures ToI(Str([sign] + s)) == Ok(if sign == '-' then -ToI(Str(s)).value else ToI(Str(s)).value)
  {
    var t := [sign] + s;
    assert !IsSpace(t[0]) && !IsSpace(s[0]);
    assert t[0..] == t && s[0..] == s;
    assert t[1..] == s;
  }

  /** An underscore between two digits is dropped, as in "1_000". */
  lemma UnderscoreDropped(a: char, b: char, s: string)
    requires IsDigit(a) && IsDigit(b)
    ensures LeadingDigits([a, '_', b] + s) == [a] + LeadingDigits([b] + s)
  {
    assert ([a, '_', b] + s)[2..] == [b] + s;
  }

  /** Hash#[] finds a pair no earlier pair shares a key with. */
  lemma {:induction false} GetAt(entries: seq<(Value, Value)>, i: nat)
    requires i < |entries|
    requires forall j :: 0 <= j < i ==> entries[j].0 != entries[i].0
    ensures Get(entries, entries[i].0) == Some(entries[i].1)
  {
    if i > 0 {
      assert entries[0].0 != entries[i].0;
      GetAt(entries[1..], i - 1);
    }
  }

  /** Joining two values that are not arrays puts the separator between
      their strings. */
  lemma JoinPair(a: Value, b: Value, separator: string)
    requires !a.List? && !b.List?
    ensures JoinValue(List([a, b]), separator) == ToS(a) + separator + ToS(b)
  {
    var v := List([a, b]);
    assert JoinItems(v, 1, separator) == ToS(b);
    assert JoinItems(v, 0, separator) == ToS(a) + separator + ToS(b);
  }

  /** Concatenation associates. */
  lemma Associates<T>(p: seq<T>, q: seq<T>, r: seq<T>)
    ensures p + (q + r) == (p + q) + r
  {
  }

  /** Upcase undoes Downcase on an upper-case letter. */
  lemma UpcaseDowncase(c: char)
    requires IsUpper(c)
    ensures Upcase(Downcase(c)) == c
  {
  }

  /** Dropping a prefix of the first part of a concatenation. */
  lemma DropAppend<T>(a: seq<T>, b: seq<T>, n: nat)
    requires n <= |a|
    ensures (a + b)[n..] == a[n..] + b
  {
  }

  /** A non-empty sequence is its front and its last element. */
  lemma FrontLast<T>(s: seq<T>)
    requires |s| > 0
    ensures s[..|s| - 1] + [s[|s| - 1]] == s
  {
  }

  /** Without its last pair, a hash with distinct keys still has distinct
      keys, and none of them is the last pair's key. */
  lemma DistinctFront(entries: seq<(Value, Value)>, front: seq<(Value, Value)>)
    requires |entries| > 0 && DistinctKeys(entries) && front == entries[..|entries| - 1]
    ensures DistinctKeys(front)
    ensures forall i :: 0 <= i < |front| ==> front[i].0 != entries[|entries| - 1].0
  {
    assert forall i :: 0 <= i < |front| ==> front[i] == entries[i];
  }


  /** A key that no pair has and that a new pair does not have either is
      still missing after the new pair is appended. */
  lemma AppendLacks(entries: seq<(Value, Value)>, pair: (Value, Value), key: Value)
    requires forall i :: 0 <= i < |entries| ==> entries[i].0 != key
    requires pair.0 != key
    ensures forall i :: 0 <= i < |entries + [pair]| ==> (entries + [pair])[i].0 != key
  {
  }


  /** A non-empty sequence is its first element and the rest. */
  lemma FirstRest<T>(s: seq<T>)
    requires |s| > 0
    ensures [s[0]] + s[1..] == s
  {
  }

  /** Appending three elements one by one appends the three of them. */
  lemma AppendThree<T>(s: seq<T>, x: T, y: T, z: T)
    ensures s + [x] + [y] + [z] == s + [x, y, z]
  {
  }

  /** Dropping one more element. */
  lemma DropOneMore<T>(s: seq<T>, i: nat)
    requires i < |s|
    ensures s[i..][1..] == s[i + 1..]
  {
  }

  /** A concatenation split where its parts meet. */
  lemma SplitAt<T>(a: seq<T>, b: seq<T>)
    ensures (a + b)[..|a|] == a && (a + b)[|a|..] == b
  {
  }

  /** Deleting one key keeps what another binds. */
  lemma DeleteKeeps(entries: seq<(Value, Value)>, key: Value, other: Value)
    requires other != key
    ensures Fetch(Delete(entries, key), other) == Fetch(entries, other)
  {
  }

  /** A sequence is its first n elements and the rest. */
  lemma TakeDrop<T>(s: seq<T>, n: nat)
    requires n <= |s|
    ensures s[..n] + s[n..] == s
  {
  }

  /** No pair Hash#delete leaves has the deleted key. */
  lemma {:induction false} DeleteDrops(entries: seq<(Value, Value)>, key: Value)
    ensures forall i :: 0 <= i < |Delete(entries, key)| ==> Delete(entries, key)[i].0 != key
  {
    if entries != [] {
      DeleteDrops(entries[1..], key);
    }
  }

  /** Hash#[] on a hash that starts with the pair `p`. */
  lemma GetCons(p: (Value, Value), rest: seq<(Value, Value)>, key: Value)
    ensures Get([p] + rest, key) == if p.0 == key then Some(p.1) else Get(rest, key)
  {
    assert ([p] + rest)[1..] == rest;
  }

  /** Hash#[] on a hash of five pairs: the first pair with the key. */
  lemma GetFive(a: (Value, Value), b: (Value, Value), c: (Value, Value), d: (Value, Value), e: (Value, Value), key: Value)
    ensures Get([a, b, c, d, e], key) ==
      if a.0 == key then Some(a.1)
      else if b.0 == key then Some(b.1)
      else if c.0 == key then Some(c.1)
      else if d.0 == key then Some(d.1)
      else if e.0 == key then Some(e.1)
      else None
  {
    GetCons(e, [], key);
    assert [e] + [] == [e];
    GetCons(d, [e], key);
    assert [d] + [e] == [d, e];
    GetCons(c, [d, e], key);
    assert [c] + [d, e] == [c, d, e];
    GetCons(b, [c, d, e], key);
    assert [b] + [c, d, e] == [b, c, d, e];
    GetCons(a, [b, c, d, e], key);
    assert [a] + [b, c, d, e] == [a, b, c, d, e];
  }

  /** The binding the last pair with `key` makes among one pair. */
  lemma GetLastOne(a: (Value, Value), key: Value)
    ensures GetLast([a], key) == if a.0 == key then Some(a.1) else None
  {
    assert [a][..0] == [];
  }

  /** The binding the last pair with `key` makes among two pairs. */
  lemma GetLastTwo(a: (Value, Value), b: (Value, Value), key: Value)
    ensures GetLast([a, b], key) == if b.0 == key then Some(b.1) else if a.0 == key then Some(a.1) else None
  {
    assert [a, b][..1] == [a];
    GetLastOne(a, key);
  }

  /** Dropping the last element of a concatenation whose second part is
      not empty. */
  lemma AppendFront<T>(a: seq<T>, b: seq<T>)
    requires |b| > 0
    ensures (a + b)[..|a + b| - 1] == a + b[..|b| - 1]
    ensures (a + b)[|a + b| - 1] == b[|b| - 1]
  {
  }
}
