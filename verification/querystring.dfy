/** Node's `querystring.parse` and `querystring.stringify` on objects whose
    values are strings.

    `parse` splits the query at every `&`, skips empty pieces, splits each
    piece at its first `=` into a key and a value (a piece without `=` has the
    empty value) and unescapes both; the pairs are assigned in order onto a
    fresh object. `stringify` writes `escape(key)=escape(value)` for every
    property, in order, joined by `&`. */
module QueryString {
  import opened Assoc
  import opened Strings
  import opened Percent

  /** One `key=value` piece of a query. */
  function ParsePiece(piece: string): (string, string) {
    var parts := Split(piece, '=');
    if |parts| == 1 then (Unescape(piece), "")
    else (Unescape(parts[0]), Unescape(Join(parts[1..], '=')))
  }

  function ParsePieces(pieces: seq<string>): Dict {
    if pieces == [] then []
    else (if pieces[0] == "" then [] else [ParsePiece(pieces[0])]) + ParsePieces(pieces[1..])
  }

  /** `querystring.parse(query)`. */
  function Parse(query: string): (r: Dict)
    ensures NoDupKeys(r)
  {
    var pairs := ParsePieces(Split(query, '&'));
    AssignNoDup([], pairs);
    Assign([], pairs)
  }

  /** One `key=value` field of `stringify`. */
  function Field(key: string, value: string): string {
    Escape(key) + "=" + Escape(value)
  }

  function Fields(m: Dict): (fs: seq<string>)
    ensures |fs| == |m|
  {
    if m == [] then [] else [Field(m[0].0, m[0].1)] + Fields(m[1..])
  }

  /** `querystring.stringify(m)`. */
  function Stringify(m: Dict): string {
    if m == [] then "" else Join(Fields(m), '&')
  }

  lemma ParseField(key: string, value: string)
    ensures Field(key, value) != ""
    ensures ParsePiece(Field(key, value)) == (key, value)
  {
    var ek, ev := Escape(key), Escape(value);
    EscapeIsEscaped(key);
    EscapeIsEscaped(value);
    SplitAt(ek, '=', ev);
    SplitWithout(ev, '=');
    assert Field(key, value) == ek + ['='] + ev;
    UnescapeEscape(key);
    UnescapeEscape(value);
  }

  lemma {:induction false} ParseFields(m: Dict)
    ensures ParsePieces(Fields(m)) == m
  {
    if m != [] {
      ParseField(m[0].0, m[0].1);
      ParseFields(m[1..]);
      assert Fields(m)[1..] == Fields(m[1..]);
      assert [m[0]] + m[1..] == m;
    }
  }

  lemma {:induction false} FieldsAvoid(m: Dict, c: char)
    requires c == '&' || c == '?'
    ensures forall i :: 0 <= i < |m| ==> c !in Fields(m)[i]
  {
    if m != [] {
      FieldsAvoid(m[1..], c);
      EscapeIsEscaped(m[0].0);
      EscapeIsEscaped(m[0].1);
      var f := Field(m[0].0, m[0].1);
      assert c !in f;
      forall i | 1 <= i < |m|
        ensures c !in Fields(m)[i]
      {
        assert Fields(m)[i] == Fields(m[1..])[i - 1];
      }
    }
  }

  /** Parse/stringify round trip: reading back the query string of an object
      gives the object, keys, values and order. */
  lemma ParseStringify(m: Dict)
    requires NoDupKeys(m)
    ensures Parse(Stringify(m)) == m
  {
    if m == [] {
      assert Split("", '&') == [""];
    } else {
      FieldsAvoid(m, '&');
      SplitJoin(Fields(m), '&');
      ParseFields(m);
      AssignOntoEmpty(m);
    }
  }

  /** The query string is empty exactly for the empty object, and holds no
      `?`, so it cannot be mistaken for the start of another query. */
  lemma StringifyShape(m: Dict)
    ensures Stringify(m) == "" <==> m == []
    ensures '?' !in Stringify(m)
  {
    if m != [] {
      FieldsAvoid(m, '?');
      JoinAvoids(Fields(m), '&', '?');
      ParseField(m[0].0, m[0].1);
      assert Fields(m)[0] == Field(m[0].0, m[0].1);
      assert |Stringify(m)| >= |Fields(m)[0]|;
    }
  }
}
