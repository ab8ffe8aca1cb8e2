/** The proxy between the host and a parser plugin
    (syslog-ng-common/src/proxies/parser/proxy.rs): it holds a builder while
    the configuration is read and the built parser afterwards. */
module ParserProxy {
  import opened Wrappers
  import opened ParserErrors

  /** The host's parent parser, an opaque pointer in the source. */
  type LogParserRef = nat

  /** The plugin's builder, abstracted to the calls it has received: the
      options in the order they were set and the parent, if given. */
  datatype ParserBuilder = ParserBuilder(options: seq<(string, string)>, parent: Option<LogParserRef>)

  /** `B::new()`: no options, no parent. */
  function NewBuilder(): ParserBuilder {
    ParserBuilder([], None)
  }

  /** `builder.option(name, value)`. */
  function WithOption(b: ParserBuilder, name: string, value: string): (r: ParserBuilder) {
    b.(options := b.options + [(name, value)])
  }

  /** `builder.parent(parent)`. */
  function WithParent(b: ParserBuilder, parent: LogParserRef): (r: ParserBuilder) {
    b.(parent := Some(parent))
  }

  /** `P` is the parser type the builder builds. */
  class RustParserProxy<P> {
    var parser: Option<P>
    var builder: Option<ParserBuilder>

    /** No parser yet, a fresh builder. */
    constructor ()
      ensures parser == None && builder == Some(NewBuilder())
    {
      parser := None;
      builder := Some(NewBuilder());
    }

    /** Consumes the builder (which must be there) and builds the parser
        with `build`: on success the parser is stored and the result is true;
        on failure the error is only logged, the result is false and the
        parser stays as it was. */
    method Init(build: ParserBuilder -> Result<P, Error>) returns (ok: bool)
      requires builder.Some?
      modifies this
      ensures builder == None
      ensures ok <==> build(old(builder.value)).Ok?
      ensures parser == if ok then Some(build(old(builder.value)).value) else old(parser)
    {
      var b := builder.value;
      builder := None;
      var built := build(b);
      if built.Ok? {
        parser := Some(built.value);
        ok := true;
      } else {
        ok := false;
      }
    }

    /** Forwards an option to the builder, creating a fresh builder first
        when there is none, so a builder exists afterwards. */
    method SetOption(name: string, value: string)
      modifies this
      ensures builder == Some(WithOption(old(if builder.Some? then builder.value else NewBuilder()), name, value))
      ensures parser == old(parser)
    {
      if builder.None? {
        builder := Some(NewBuilder());
      }
      builder := Some(WithOption(builder.value, name, value));
    }

    /** Hands the input to the built parser, which must exist. */
    method Process(input: string, parse: (P, string) -> bool) returns (matched: bool)
      requires parser.Some?
      ensures matched == parse(parser.value, input)
    {
      matched := parse(parser.value, input);
    }

    /** Gives the builder, which must exist, its parent. */
    method Parent(parent: LogParserRef)
      requires builder.Some?
      modifies this
      ensures builder == Some(WithParent(old(builder.value), parent))
      ensures parser == old(parser)
    {
      builder := Some(WithParent(builder.value, parent));
    }
  }

  /** The host's life cycle: options are collected before `init`, and a
      successful `init` leaves a parser that `process` can use, while a
      later option starts a fresh builder. */
  method LifeCycle(build: ParserBuilder -> Result<bool, Error>)
    requires forall b :: build(b).Ok?
  {
    var proxy := new RustParserProxy<bool>();
    proxy.SetOption("pattern_file", "patterns.xml");
    assert NewBuilder().options + [("pattern_file", "patterns.xml")] == [("pattern_file", "patterns.xml")];
    proxy.Parent(7);
    assert proxy.builder == Some(ParserBuilder([("pattern_file", "patterns.xml")], Some(7)));
    var ok := proxy.Init(build);
    assert ok && proxy.parser.Some? && proxy.builder.None?;
    var matched := proxy.Process("input", (p, s) => p);
    proxy.SetOption("prefix", ".");
    assert NewBuilder().options + [("prefix", ".")] == [("prefix", ".")];
    assert proxy.builder == Some(ParserBuilder([("prefix", ".")], None));
  }
}
