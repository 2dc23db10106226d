/**
 * JSON as an abstract codec. A JSON text is either the encoding of a JSON
 * value or a string that does not parse; no character-level grammar is
 * modelled. `Dump` is Ruby's `to_json` (symbols become strings, hash keys
 * are converted with to_s, and a key that occurs twice after conversion is
 * kept once, at its first position, with its last value, which is what
 * `JSON.parse` makes of such a text), and `Parse` is `JSON.parse`.
 */
module Json {
  import opened RubyValues

  /** The values JSON.parse can produce: no symbols, no foreign objects, and
      hashes whose keys are all strings. */
  predicate IsJson(v: Value)
    decreases v
  {
    match v
    case Sym(_) => false
    case Object(_) => false
    case List(items) => forall i :: 0 <= i < |items| ==> IsJson(items[i])
    case Hash(entries) => forall i :: 0 <= i < |entries| ==> entries[i].0.Str? && IsJson(entries[i].1)
    case _ => true
  }

  type JsonValue = v: Value | IsJson(v) witness Nil

  /** A string attribute that carries JSON: either the text of a JSON value,
      or some text that is not JSON. */
  datatype Text = Encoded(value: JsonValue) | Malformed(raw: string)

  function ParserError(raw: string): Exception {
    Exception("JSON::ParserError", "unexpected token at '" + raw + "'", true)
  }

  const NilInputError := Exception("TypeError", "no implicit conversion of nil into String", true)

  /** JSON.parse; a missing text (nil) raises TypeError. */
  function Parse(text: Option<Text>): (r: Result<JsonValue>)
    ensures r.Ok? <==> text.Some? && text.value.Encoded?
    ensures r.Ok? ==> r.value == text.value.value
  {
    match text
    case None => Err(NilInputError)
    case Some(Encoded(v)) => Ok(v)
    case Some(Malformed(raw)) => Err(ParserError(raw))
  }

  /** The value JSON.parse gives back for the text `to_json` writes. */
  function Normalise(v: Value): (r: Value)
    ensures IsJson(r)
    ensures v.List? <==> r.List?
    ensures v.Hash? <==> r.Hash?
    decreases v
  {
    match v
    case Sym(n) => Str(n)
    case Object(_) => Str(ToS(v))
    case List(items) =>
      var r := List(seq(|items|, i requires 0 <= i < |items| => Normalise(items[i])));
      assert forall i :: 0 <= i < |r.items| ==> IsJson(r.items[i]);
      r
    case Hash(entries) =>
      var pairs := seq(|entries|, i requires 0 <= i < |entries| =>
                         assert entries[i] < v;
                         (Str(ToS(entries[i].0)), Normalise(entries[i].1)));
      assert JsonPairs(pairs);
      var merged := MergePairs(pairs);
      assert JsonPairs(merged);
      Hash(merged)
    case _ => v
  }

  predicate JsonPairs(pairs: seq<(Value, Value)>) {
    forall i :: 0 <= i < |pairs| ==> pairs[i].0.Str? && IsJson(pairs[i].1)
  }

  /** Builds a hash pair by pair, as JSON.parse does for an object: a
      repeated key keeps its first position and its last value. */
  function MergePairs(pairs: seq<(Value, Value)>): (r: seq<(Value, Value)>)
    ensures forall i :: 0 <= i < |r| ==> r[i] in pairs
    ensures forall k :: Get(r, k) == GetLast(pairs, k)
    decreases |pairs|
  {
    if pairs == [] then []
    else
      var last := pairs[|pairs| - 1];
      var r := Put(MergePairs(pairs[..|pairs| - 1]), last.0, last.1);
      assert forall i :: 0 <= i < |r| ==> r[i] in pairs by {
        forall i | 0 <= i < |r| ensures r[i] in pairs {
          if r[i] != last {
            assert r[i] in pairs[..|pairs| - 1];
          }
        }
      }
      r
  }

  /** Object#to_json. */
  function Dump(v: Value): (t: Text)
    ensures Parse(Some(t)) == Ok(Normalise(v))
  {
    Encoded(Normalise(v))
  }

  // ---------------------------------------------------------------------
  // Properties

  lemma {:induction false} GetLastUnique(pairs: seq<(Value, Value)>, i: nat)
    requires i < |pairs|
    requires forall j :: 0 <= j < |pairs| && j != i ==> pairs[j].0 != pairs[i].0
    ensures GetLast(pairs, pairs[i].0) == Some(pairs[i].1)
    decreases |pairs|
  {
    if i != |pairs| - 1 {
      var front := pairs[..|pairs| - 1];
      assert forall j :: 0 <= j < |front| ==> front[j] == pairs[j];
      GetLastUnique(front, i);
    }
  }

  lemma {:induction false} GetLastAbsent(pairs: seq<(Value, Value)>, key: Value)
    requires forall j :: 0 <= j < |pairs| ==> pairs[j].0 != key
    ensures GetLast(pairs, key) == None
    decreases |pairs|
  {
    if pairs != [] {
      var front := pairs[..|pairs| - 1];
      assert forall j :: 0 <= j < |front| ==> front[j] == pairs[j];
      GetLastAbsent(front, key);
    }
  }

  /** A key whose string form no other key of the hash shares survives
      serialisation: the parsed text binds that string to the serialised
      value. */
  lemma DumpKeepsKey(entries: seq<(Value, Value)>, i: nat)
    requires i < |entries|
    requires forall j :: 0 <= j < |entries| && j != i ==> ToS(entries[j].0) != ToS(entries[i].0)
    ensures Normalise(Hash(entries)).Hash?
    ensures Get(Normalise(Hash(entries)).entries, Str(ToS(entries[i].0))) == Some(Normalise(entries[i].1))
  {
    var v := Hash(entries);
    var pairs := seq(|entries|, j requires 0 <= j < |entries| =>
                       assert entries[j] < v;
                       (Str(ToS(entries[j].0)), Normalise(entries[j].1)));
    assert Normalise(v) == Hash(MergePairs(pairs));
    GetLastUnique(pairs, i);
  }

  /** A key whose string form no key of the hash has is absent from the
      parsed text. */
  lemma DumpLacksKey(entries: seq<(Value, Value)>, name: string)
    requires forall j :: 0 <= j < |entries| ==> ToS(entries[j].0) != name
    ensures Normalise(Hash(entries)).Hash?
    ensures Get(Normalise(Hash(entries)).entries, Str(name)) == None
  {
    var v := Hash(entries);
    var pairs := seq(|entries|, j requires 0 <= j < |entries| =>
                       assert entries[j] < v;
                       (Str(ToS(entries[j].0)), Normalise(entries[j].1)));
    assert Normalise(v) == Hash(MergePairs(pairs));
    GetLastAbsent(pairs, Str(name));
  }

  /** Merging in a key the pairs lack appends it. */
  lemma {:induction false} PutAppends(entries: seq<(Value, Value)>, key: Value, value: Value)
    requires forall i :: 0 <= i < |entries| ==> entries[i].0 != key
    ensures Put(entries, key, value) == entries + [(key, value)]
  {
    if entries != [] {
      var rest := entries[1..];
      assert entries[0].0 != key;
      assert forall i :: 0 <= i < |rest| ==> rest[i] == entries[i + 1];
      PutAppends(rest, key, value);
      Associates([entries[0]], rest, [(key, value)]);
      FirstRest(entries);
    }
  }

  /** Pairs whose keys are all different are kept as they are. */
  lemma {:induction false} MergeDistinct(pairs: seq<(Value, Value)>)
    requires DistinctKeys(pairs)
    ensures MergePairs(pairs) == pairs
    decreases |pairs|
  {
    if pairs != [] {
      var front := pairs[..|pairs| - 1];
      var last := pairs[|pairs| - 1];
      DistinctFront(pairs, front);
      MergeDistinct(front);
      PutAppends(front, last.0, last.1);
      FrontLast(pairs);
    }
  }

  /** A hash of strings under distinct symbol keys serialises to the same
      strings under the symbols' names. */
  lemma NormaliseFields(entries: seq<(Value, Value)>)
    requires forall i :: 0 <= i < |entries| ==> entries[i].0.Sym? && entries[i].1.Str?
    requires forall i, j :: 0 <= i < j < |entries| ==> entries[i].0 != entries[j].0
    ensures Normalise(Hash(entries)) ==
      Hash(seq(|entries|, i requires 0 <= i < |entries| => (Str(entries[i].0.name), entries[i].1)))
  {
    var v := Hash(entries);
    var pairs := seq(|entries|, j requires 0 <= j < |entries| =>
                       assert entries[j] < v;
                       (Str(ToS(entries[j].0)), Normalise(entries[j].1)));
    assert Normalise(v) == Hash(MergePairs(pairs));
    var fields := seq(|entries|, i requires 0 <= i < |entries| => (Str(entries[i].0.name), entries[i].1));
    assert pairs == fields;
    assert DistinctKeys(fields) by {
      forall i, j | 0 <= i < j < |fields| ensures fields[i].0 != fields[j].0 {
        assert entries[i].0 != entries[j].0;
      }
    }
    MergeDistinct(fields);
  }
}
