/** The parser base and the greedy parser (src/parsers/base.rs,
    src/parsers/greedy.rs). */
module Parsers {
  import opened Wrappers

  /** The part every parser shares: an optional name. */
  class ParserBase {
    var name: Option<string>

    constructor WithName(name: string)
      ensures this.name == Some(name)
    {
      this.name := Some(name);
    }

    constructor ()
      ensures name == None
    {
      name := None;
    }

    function Name(): (n: Option<string>)
      reads this
      ensures n == name
    {
      name
    }

    /** Overwrites any earlier name. */
    method SetName(name: string)
      modifies this
      ensures this.name == Some(name)
    {
      this.name := Some(name);
    }
  }

  /** `pattern` occurs in `value` starting at position `i`. */
  predicate OccursAt(value: string, pattern: string, i: nat) {
    i + |pattern| <= |value| && value[i..i + |pattern|] == pattern
  }

  /** The search of `str::find` from position `i` on: the first occurrence
      of `pattern` at or after `i`, or `None` when there is none. */
  function FindFrom(value: string, pattern: string, i: nat): (r: Option<nat>)
    ensures r.Some? ==> i <= r.value && OccursAt(value, pattern, r.value)
    ensures r.Some? ==> forall j: nat :: i <= j < r.value ==> !OccursAt(value, pattern, j)
    ensures r.None? ==> forall j: nat :: i <= j ==> !OccursAt(value, pattern, j)
    decreases |value| - i
  {
    if i + |pattern| > |value| then None
    else if value[i..i + |pattern|] == pattern then Some(i)
    else FindFrom(value, pattern, i + 1)
  }

  /** The position of the first occurrence of `pattern` in `value`. */
  function Find(value: string, pattern: string): (r: Option<nat>)
    ensures r.Some? ==> OccursAt(value, pattern, r.value)
    ensures r.Some? ==> forall j: nat :: j < r.value ==> !OccursAt(value, pattern, j)
    ensures r.None? <==> forall j: nat :: !OccursAt(value, pattern, j)
  {
    FindFrom(value, pattern, 0)
  }

  /** A successful parse: the parser that matched and the matched text. */
  datatype ParseResult = ParseResult(parser: GreedyParser, value: string)

  /** Matches everything up to the first occurrence of its end string, or
      all of the input when it has none. */
  class GreedyParser {
    const base: ParserBase
    var endString: Option<string>

    /** `GreedyParser::new(name)`: named, without an end string. */
    constructor (name: string)
      ensures fresh(base) && base.name == Some(name)
      ensures endString == None
    {
      base := new ParserBase.WithName(name);
      endString := None;
    }

    /** `GreedyParser::from_str(name, end)`: named, with end string `end`. */
    constructor FromStr(name: string, endString: string)
      ensures fresh(base) && base.name == Some(name)
      ensures this.endString == Some(endString)
    {
      base := new ParserBase.WithName(name);
      this.endString := None;
      new;
      SetEndString(endString);
    }

    method SetEndString(endString: string)
      modifies this
      ensures this.endString == Some(endString)
    {
      this.endString := Some(endString);
    }

    /** Without an end string the whole input matches. With one, the match
        is the input before the end string's first occurrence, so the end
        string follows it directly; with no occurrence there is no match. */
    function Parse(value: string): (r: Option<ParseResult>)
      reads this
      ensures r.Some? ==> r.value.parser == this && r.value.value <= value
      ensures endString.None? ==> r.Some? && r.value.value == value
      ensures endString.Some? ==>
                (r.Some? <==> exists i: nat :: OccursAt(value, endString.value, i))
      ensures endString.Some? && r.Some? ==>
                OccursAt(value, endString.value, |r.value.value|) &&
                forall j: nat :: j < |r.value.value| ==> !OccursAt(value, endString.value, j)
    {
      if endString.None? then Some(ParseResult(this, value))
      else
        match Find(value, endString.value)
        case Some(pos) => Some(ParseResult(this, value[..pos]))
        case None => None
    }

    function Name(): (n: Option<string>)
      reads this, base
      ensures n == base.name
    {
      base.Name()
    }
  }

  /** The two unit tests of src/parsers/greedy.rs: with end string "foo",
      "qux foo bar" yields "qux " from the parser named "name", and
      "qux baz bar" does not match. */
  lemma GreedyParserExamples(p: GreedyParser)
    requires p.endString == Some("foo") && p.base.name == Some("name")
    ensures p.Parse("qux foo bar").Some?
    ensures p.Parse("qux foo bar").value.value == "qux "
    ensures p.Parse("qux foo bar").value.parser.Name() == Some("name")
    ensures p.Parse("qux baz bar").None?
  {
    var u := "qux foo bar";
    assert OccursAt(u, "foo", 4);
    forall j: nat | j < 4 ensures !OccursAt(u, "foo", j) {
      assert u[j] != 'f';
    }
    var v := "qux baz bar";
    forall i: nat ensures !OccursAt(v, "foo", i) {
      if i + 3 <= |v| {
        assert v[i..i + 3][0] == v[i] != 'f';
      }
    }
  }
}
