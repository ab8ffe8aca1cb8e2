/** The configuration error of parser plugins
    (syslog-ng-rs/syslog-ng-common/src/proxies/parser/error.rs), re-exported
    as `OptionError`. */
module ParserErrors {

  datatype Error =
    | MissingRequiredOption(option: string)
    | InvalidValue(optionName: string, value: string, expectedValue: string)
    | UnknownOption(optionName: string)
    | Verbatim(msg: string)

  const MissingDescription: string := "A required option is missing"
  const InvalidDescription: string := "Invalid value in option"
  const UnknownDescription: string := "Unknown configuration option"

  /** What each prefixed display text puts before the option's name. */
  const MissingPrefix: string := MissingDescription + ": "
  const UnknownPrefix: string := UnknownDescription + ": option_name="
  const InvalidPrefix: string := InvalidDescription + ". option_name="

  /** The short description of each variant: the display text without the
      option, and the message itself for a verbatim error. */
  function Description(e: Error): (d: string)
    ensures d <= Display(e)
    ensures d == Display(e) <==> e.Verbatim?
    ensures e.MissingRequiredOption? ==> d + ": " == MissingPrefix
    ensures e.UnknownOption? ==> d + ": option_name=" == UnknownPrefix
    ensures e.InvalidValue? ==> d + ". option_name=" == InvalidPrefix
  {
    match e
    case MissingRequiredOption(_) =>
      assert MissingDescription <= MissingPrefix <= Display(e);
      MissingDescription
    case InvalidValue(_, _, _) =>
      assert InvalidDescription <= InvalidPrefix <= Display(e);
      InvalidDescription
    case UnknownOption(_) =>
      assert UnknownDescription <= UnknownPrefix <= Display(e);
      UnknownDescription
    case Verbatim(msg) => msg
  }

  /** The display text of each variant. A missing or unknown option's name
      is what follows the variant's prefix; an invalid value's text names the
      option first and the expected value last. */
  function Display(e: Error): (t: string)
    ensures e.MissingRequiredOption? ==> MissingPrefix <= t && t[|MissingPrefix|..] == e.option
    ensures e.UnknownOption? ==> UnknownPrefix <= t && t[|UnknownPrefix|..] == e.optionName
    ensures e.InvalidValue? ==>
      InvalidPrefix + e.optionName <= t && |e.expectedValue| <= |t|
      && t[|t| - |e.expectedValue|..] == e.expectedValue
    ensures e.Verbatim? ==> t == e.msg
  {
    match e
    case MissingRequiredOption(option) => MissingPrefix + option
    case InvalidValue(optionName, value, expectedValue) =>
      InvalidPrefix + optionName + " value=" + value + " expected_value=" + expectedValue
    case UnknownOption(optionName) => UnknownPrefix + optionName
    case Verbatim(msg) => msg
  }

  function MissingRequiredOptionError(option: string): (e: Error)
    ensures e.MissingRequiredOption? && e.option == option
    ensures Display(e) == "A required option is missing: " + option
  {
    MissingRequiredOption(option)
  }

  /** The three arguments land in the fields in the order given. */
  function InvalidValueError(optionName: string, value: string, expectedValue: string): (e: Error)
    ensures e.InvalidValue?
    ensures e.optionName == optionName && e.value == value && e.expectedValue == expectedValue
    ensures Display(e) == "Invalid value in option. option_name=" + optionName + " value=" + value
      + " expected_value=" + expectedValue
  {
    InvalidValue(optionName, value, expectedValue)
  }

  function VerbatimError(msg: string): (e: Error)
    ensures e.Verbatim? && e.msg == msg
    ensures Display(e) == msg && Description(e) == msg
  {
    Verbatim(msg)
  }

  function UnknownOptionError(optionName: string): (e: Error)
    ensures e.UnknownOption? && e.optionName == optionName
    ensures Display(e) == "Unknown configuration option: option_name=" + optionName
  {
    UnknownOption(optionName)
  }

  /** The first character of a missing or unknown option error's text. */
  function FirstChar(e: Error): (c: char)
    requires e.MissingRequiredOption? || e.UnknownOption?
    ensures Display(e)[0] == c
    ensures c == 'A' <==> e.MissingRequiredOption?
  {
    if e.MissingRequiredOption? then
      assert Display(e) == MissingPrefix + e.option;
      MissingPrefix[0]
    else
      assert Display(e) == UnknownPrefix + e.optionName;
      UnknownPrefix[0]
  }

  /** The display text of a missing or unknown option error names the
      option: the variant and the option can be read back from it. */
  lemma DisplayIdentifiesOptionErrors(e1: Error, e2: Error)
    requires e1.MissingRequiredOption? || e1.UnknownOption?
    requires e2.MissingRequiredOption? || e2.UnknownOption?
    requires Display(e1) == Display(e2)
    ensures e1 == e2
  {
    var d := Display(e1);
    // the two prefixes already differ in their first character
    assert d[0] == FirstChar(e1) && d[0] == FirstChar(e2);
    if e1.MissingRequiredOption? {
      assert e1.option == d[|MissingPrefix|..] == e2.option;
    } else {
      assert e1.optionName == d[|UnknownPrefix|..] == e2.optionName;
    }
  }

  /** The invalid-value text does not identify its error: field text that
      contains " value=" can be split in two ways. */
  lemma InvalidValueDisplayIsAmbiguous()
    ensures Display(InvalidValue("a value=b", "c", "d")) == Display(InvalidValue("a", "b value=c", "d"))
  {
  }
}
