/** The command line: the `Parameters` that `parse` derives from what clap
    matched. clap itself is described, not modelled: `ArgMatches` is the shape
    of clap's result (the top level's own arguments and the matched subcommand
    with its arguments), and `Declared` says which results the declared `App`
    lets through. */
module Cli {
  import opened Results

  datatype SubCommands = Info | Pot | Transactions

  datatype CommandOptions = List

  datatype Parameters = Parameters(subcommand: Option<SubCommands>, options: Option<CommandOptions>)

  /** The name each subcommand is declared with. */
  function Name(sc: SubCommands): string {
    match sc
    case Info => "info"
    case Pot => "pot"
    case Transactions => "transactions"
  }

  /** The subcommand a name stands for, if any. */
  function FromName(n: string): (r: Option<SubCommands>)
    ensures r.Some? ==> Name(r.value) == n
  {
    if n == "info" then Some(Info)
    else if n == "pot" then Some(Pot)
    else if n == "transactions" then Some(Transactions)
    else None
  }

  /** Names and subcommands correspond one to one. */
  lemma NameRoundTrip(sc: SubCommands)
    ensures FromName(Name(sc)) == Some(sc)
  {
  }

  /** What `parse` returns for subcommand `sc`. */
  function ParametersOf(sc: SubCommands): Parameters {
    Parameters(Some(sc), if sc == Pot then Some(List) else None)
  }

  /** The `match` of `parse`, given the matched subcommand name and whether the
      `pot-list` flag is seen. An unknown name panics with "Unrecognised subcommand". */
  function Select(name: Option<string>, potList: bool): (r: Result<Parameters>)
    ensures r.Err? <==> name.Some? && FromName(name.value).None?
    ensures r.Err? ==> r.error == UnrecognisedSubcommand
    ensures r.Ok? ==> (r.value.options.Some? <==> r.value.subcommand == Some(Pot))
    ensures forall sc :: r == Ok(ParametersOf(sc)) <==> name == Some(Name(sc)) && (sc == Pot ==> potList)
    ensures r == Ok(Parameters(None, None)) <==> name.None? || (name == Some("pot") && !potList)
  {
    match name
    case None => Ok(Parameters(None, None))
    case Some(n) =>
      if n == "info" then Ok(Parameters(Some(Info), None))
      else if n == "pot" then
        (if potList then Ok(Parameters(Some(Pot), Some(List))) else Ok(Parameters(None, None)))
      else if n == "transactions" then Ok(Parameters(Some(Transactions), None))
      else Err(UnrecognisedSubcommand)
  }

  const PotListArg := "pot-list"

  /** A matched subcommand with the arguments given after it. */
  datatype SubMatches = SubMatches(name: string, args: set<string>)

  /** clap's `ArgMatches`: the arguments matched at this level and the matched
      subcommand, whose arguments are kept in its own matches. */
  datatype ArgMatches = ArgMatches(args: set<string>, subcommand: Option<SubMatches>)

  function SubcommandName(m: ArgMatches): Option<string> {
    match m.subcommand
    case None => None
    case Some(s) => Some(s.name)
  }

  /** clap 2's `ArgMatches::is_present`: an argument of this level, or the name
      of the matched subcommand. */
  predicate IsPresent(m: ArgMatches, arg: string) {
    arg in m.args || (m.subcommand.Some? && m.subcommand.value.name == arg)
  }

  /** The results the declared `App` lets `get_matches` return: no top-level
      arguments, one of the three subcommands, and `pot` only together with its
      required `pot-list` flag. */
  predicate Declared(m: ArgMatches) {
    && m.args == {}
    && match m.subcommand
       case None => true
       case Some(s) =>
         && FromName(s.name).Some?
         && s.args == (if s.name == "pot" then {PotListArg} else {})
  }

  /** `parse` as written: the flag is asked of the top-level matches. */
  function ParseAsWritten(m: ArgMatches): Result<Parameters> {
    Select(SubcommandName(m), IsPresent(m, PotListArg))
  }

  /** The flag as the `pot` subcommand's own matches report it. */
  predicate PotListGiven(m: ArgMatches) {
    m.subcommand.Some? && m.subcommand.value.name == "pot" && PotListArg in m.subcommand.value.args
  }

  /** `parse` with the flag read from the `pot` subcommand's matches. */
  function Parse(m: ArgMatches): Result<Parameters> {
    Select(SubcommandName(m), PotListGiven(m))
  }

  /** What clap returns for `monzo pot --list`. */
  const PotList := ArgMatches({}, Some(SubMatches("pot", {PotListArg})))

  /** As written, `monzo pot --list` yields the parameters of no subcommand. */
  lemma PotListAsWritten()
    ensures Declared(PotList)
    ensures ParseAsWritten(PotList) == Ok(Parameters(None, None))
  {
  }

  /** As written, no result clap lets through selects the pot listing. */
  lemma PotListUnreachableAsWritten(m: ArgMatches)
    requires Declared(m)
    ensures ParseAsWritten(m).Ok?
    ensures ParseAsWritten(m).value.subcommand != Some(Pot)
  {
  }

  /** With the flag read where clap puts it, every result clap lets through maps
      to its subcommand's parameters, and no subcommand to `(None, None)`: the
      panic and the `pot` branch without the flag cannot be reached. */
  lemma ParseDeclared(m: ArgMatches)
    requires Declared(m)
    ensures Parse(m).Ok?
    ensures m.subcommand.None? ==> Parse(m).value == Parameters(None, None)
    ensures m.subcommand.Some? ==>
              Parse(m).value == ParametersOf(FromName(m.subcommand.value.name).value)
  {
  }
}
