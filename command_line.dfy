/**
  The command-line front end of `_Halting_Machine_/h.py` (`blackboard`): look
  up the command, turn its argument strings into the values the command
  takes, and call it. The model stops at the call: its outcome is either the
  error that was reported (and nothing called) or the call that would be made.

  Turning a string into a number is left to a `NumberSyntax`, two possibly
  failing parsers standing for the language's integer and float conversions.
 */
module CommandLine {
  import opened Wrappers
  import ComplexLogic

  /** The functions the command table can reach. */
  datatype Target =
    | Halt | Loop | QInverse | HArctan | HSigmoid
    | QnTan2 | QnCot2 | QnTan2Sin | QnCot2Cos
    | HaltingMachine | ComplexLogicFunction | ComplexCoinflip

  /** The command table: command name to function. */
  const FunctionMap: map<string, Target> := map[
    "halt" := Halt,
    "loop" := Loop,
    "q_inverse" := QInverse,
    "h_arctan" := HArctan,
    "h_sigmoid" := HSigmoid,
    "qn_tan2" := QnTan2,
    "qn_cot2" := QnCot2,
    "qn_tan2_sin" := QnTan2Sin,
    "qn_cot2_cos" := QnCot2Cos,
    "halting_machine" := HaltingMachine,
    "complex_logic" := ComplexLogicFunction,
    "complex_coinflip" := ComplexCoinflip
  ]

  /** A float value, kept abstract apart from the infinities the front end
      produces itself. */
  datatype Float = Finite(value: real) | Infinity(negative: bool) | NotANumber

  datatype Number = IntNumber(i: int) | FloatNumber(f: Float)

  /** The integer and float conversions of strings; `None` is a rejected string. */
  datatype NumberSyntax = NumberSyntax(intOf: string -> Option<int>, floatOf: string -> Option<Float>)

  datatype Error =
    | UnknownCommand           // "Unknown command."
    | MissingSeparator         // no "--" among the halting machine's arguments
    | DepthNotSingle           // not exactly one argument after the first "--"
    | InvalidHaltingArguments  // an x-value or the depth is not a number
    | NotEnoughLogicArguments  // fewer than four arguments for complex_logic
    | InvalidArgument          // a numeric argument that does not convert

  /** The call the front end makes, with the arguments it prepared. */
  datatype Call =
    | HaltingMachineCall(xValues: seq<Number>, depth: int)
    | ComplexLogicCall(start: ComplexLogic.State, operation: string)
      /** The coins passed positionally; `None` is an explicit `None` argument. */
    | CoinFlipCall(coins: seq<Option<bool>>)
    | NumericCall(target: Target, args: seq<Number>)

  datatype Outcome = Rejected(error: Error) | Called(call: Call)

  predicate IsUpper(c: char) {
    'A' <= c <= 'Z'
  }

  function LowerChar(c: char): char {
    if IsUpper(c) then (c as int + 32) as char else c
  }

  /** Lower-casing of a string: every upper-case letter becomes its lower-case
      letter and every other character is kept. */
  function Lower(s: string): (r: string)
    ensures |r| == |s|
    ensures forall i :: 0 <= i < |s| ==> !IsUpper(r[i])
    ensures forall i :: 0 <= i < |s| ==> if IsUpper(s[i]) then r[i] as int == s[i] as int + 32 else r[i] == s[i]
  {
    seq(|s|, i requires 0 <= i < |s| => LowerChar(s[i]))
  }

  /** The tokens a Boolean argument is compared with, after lower-casing. */
  const TrueTokens: seq<string> := ["True", "1", "t", "yes"]

  function ParseBool(token: string): bool {
    Lower(token) in TrueTokens
  }

  /** Only "1", "t" and "yes", in any letter case, are true: the entry "True"
      can never equal a lower-cased string, so "true" and "True" are false. */
  lemma ParseBoolAccepts(token: string)
    ensures ParseBool(token) <==> Lower(token) in ["1", "t", "yes"]
    ensures !ParseBool("true") && !ParseBool("True") && ParseBool("T") && ParseBool("YES")
  {
    if |token| == 4 {
      assert !IsUpper(Lower(token)[0]);
    }
    assert Lower("true") == "true";
    assert Lower("True") == "true";
    assert Lower("T") == "t";
    assert Lower("YES") == "yes";
  }

  /** A number argument: a float when it holds '.' or an 'e' of either case,
      otherwise an integer. */
  function NumberOf(token: string, syntax: NumberSyntax): (r: Option<Number>)
    ensures r.Some? ==> (r.value.FloatNumber? <==> '.' in token || 'e' in Lower(token))
  {
    if '.' in token || 'e' in Lower(token) then
      match syntax.floatOf(token)
      case Some(f) => Some(FloatNumber(f))
      case None => None
    else
      match syntax.intOf(token)
      case Some(n) => Some(IntNumber(n))
      case None => None
  }

  /** The spellings a generic numeric argument may use for an infinity. */
  const InfinityTokens: seq<string> := ["inf", "-inf", "+inf"]

  /** A numeric argument of a generic command: an infinity token converts
      directly, anything else as a number. */
  function GenericArgumentOf(token: string, syntax: NumberSyntax): (r: Option<Number>)
    ensures token in InfinityTokens ==> r.Some? && r.value.FloatNumber? && r.value.f.Infinity?
    ensures token in InfinityTokens ==> (r.value.f.negative <==> token[0] == '-')
  {
    if token in InfinityTokens then Some(FloatNumber(Infinity(token == "-inf")))
    else NumberOf(token, syntax)
  }

  /** The spelling of a token alone decides which conversion it goes
      through: two number syntaxes that agree on that conversion of the
      token give the same number, whatever the other conversion does. */
  lemma NumberOfConsultsOneParser(token: string, s1: NumberSyntax, s2: NumberSyntax)
    requires ('.' in token || 'e' in Lower(token)) ==> s1.floatOf(token) == s2.floatOf(token)
    requires !('.' in token || 'e' in Lower(token)) ==> s1.intOf(token) == s2.intOf(token)
    ensures NumberOf(token, s1) == NumberOf(token, s2)
  {
  }

  /** A generic argument accepts everything a number argument accepts, and
      the infinity tokens besides, even under a syntax that rejects every
      string; the infinity tokens mean the same under every syntax. */
  lemma GenericExtendsNumber(token: string, s1: NumberSyntax, s2: NumberSyntax)
    ensures NumberOf(token, s1).Some? ==> GenericArgumentOf(token, s1).Some?
    ensures token in InfinityTokens ==> GenericArgumentOf(token, NumberSyntax(_ => None, _ => None)).Some?
    ensures token in InfinityTokens ==> GenericArgumentOf(token, s1) == GenericArgumentOf(token, s2)
    ensures token !in InfinityTokens ==> GenericArgumentOf(token, s1) == NumberOf(token, s1)
  {
  }

  /** Which conversion a list of tokens goes through. */
  datatype Conversion = XValue | GenericArgument

  function Convert(conversion: Conversion, token: string, syntax: NumberSyntax): Option<Number> {
    match conversion
    case XValue => NumberOf(token, syntax)
    case GenericArgument => GenericArgumentOf(token, syntax)
  }

  /** Every token converted in order, or `None` when any one of them fails. */
  function ConvertEach(conversion: Conversion, tokens: seq<string>, syntax: NumberSyntax): (r: Option<seq<Number>>)
    ensures r.Some? <==> forall k :: 0 <= k < |tokens| ==> Convert(conversion, tokens[k], syntax).Some?
    ensures r.Some? ==> |r.value| == |tokens|
    ensures r.Some? ==> forall k :: 0 <= k < |tokens| ==> Convert(conversion, tokens[k], syntax) == Some(r.value[k])
    decreases |tokens|
  {
    if tokens == [] then Some([])
    else match (Convert(conversion, tokens[0], syntax), ConvertEach(conversion, tokens[1..], syntax))
      case (Some(n), Some(rest)) => Some([n] + rest)
      case _ => None
  }

  /** The position of the first occurrence of `x` in `s`. */
  function IndexOf(s: seq<string>, x: string): (r: nat)
    requires x in s
    ensures r < |s| && s[r] == x
    ensures x !in s[..r]
  {
    if s[0] == x then 0 else 1 + IndexOf(s[1..], x)
  }

  /** Arguments of the halting machine: x-values, "--", then the depth. */
  function PrepareHaltingMachine(args: seq<string>, syntax: NumberSyntax): Outcome {
    if "--" !in args then Rejected(MissingSeparator)
    else
      var separator := IndexOf(args, "--");
      var depthArgs := args[separator + 1..];
      if |depthArgs| != 1 then Rejected(DepthNotSingle)
      else match (ConvertEach(XValue, args[..separator], syntax), syntax.intOf(depthArgs[0]))
        case (Some(xValues), Some(depth)) => Called(HaltingMachineCall(xValues, depth))
        case _ => Rejected(InvalidHaltingArguments)
  }

  /** Arguments of complex_logic: two Booleans, the connective and the operation. */
  function PrepareComplexLogic(args: seq<string>): Outcome {
    if |args| >= 4 then
      Called(ComplexLogicCall(ComplexLogic.State(ParseBool(args[0]), ParseBool(args[1]), args[2]), args[3]))
    else Rejected(NotEnoughLogicArguments)
  }

  /** Arguments of complex_coinflip: none at all when there are no arguments,
      otherwise both coins, the second `None` when it is missing. */
  function CoinArguments(args: seq<string>): seq<Option<bool>> {
    if |args| == 0 then []
    else [Some(ParseBool(args[0])), if |args| > 1 then Some(ParseBool(args[1])) else None]
  }

  /** At most this many arguments reach a generic command. */
  const GenericLimit: nat := 4

  function Limited(args: seq<string>): seq<string> {
    if |args| <= GenericLimit then args else args[..GenericLimit]
  }

  /** What the front end does with a command line: the error it reports, or
      the call it makes. */
  function Prepare(command: string, args: seq<string>, syntax: NumberSyntax): Outcome {
    if command !in FunctionMap then Rejected(UnknownCommand)
    else match FunctionMap[command]
      case HaltingMachine => PrepareHaltingMachine(args, syntax)
      case ComplexLogicFunction => PrepareComplexLogic(args)
      case ComplexCoinflip => Called(CoinFlipCall(CoinArguments(args)))
      case target =>
        match ConvertEach(GenericArgument, Limited(args), syntax)
        case Some(numbers) => Called(NumericCall(target, numbers))
        case None => Rejected(InvalidArgument)
  }

  /** An unknown command, and only an unknown command, is reported as such;
      nothing is called for it. */
  lemma UnknownCommandCallsNothing(command: string, args: seq<string>, syntax: NumberSyntax)
    ensures Prepare(command, args, syntax) == Rejected(UnknownCommand) <==> command !in FunctionMap
  {
  }

  /** The halting machine without a "--" among its arguments is an error. */
  lemma HaltingMachineNeedsSeparator(args: seq<string>, syntax: NumberSyntax)
    ensures Prepare("halting_machine", args, syntax) == Rejected(MissingSeparator) <==> "--" !in args
  {
  }

  /** After the first "--" there must be exactly one argument, the depth. */
  lemma HaltingMachineSingleDepth(args: seq<string>, syntax: NumberSyntax)
    requires "--" in args
    ensures Prepare("halting_machine", args, syntax) == Rejected(DepthNotSingle)
        <==> |args| != IndexOf(args, "--") + 2
  {
    assert FunctionMap["halting_machine"] == HaltingMachine;
    var separator := IndexOf(args, "--");
    if |args| == separator + 2 {
      var xValues := ConvertEach(XValue, args[..separator], syntax);
      var depth := syntax.intOf(args[separator + 1]);
      assert PrepareHaltingMachine(args, syntax) != Rejected(DepthNotSingle) by {
        assert args[separator + 1..] == [args[separator + 1]];
        if xValues.Some? && depth.Some? {
          assert PrepareHaltingMachine(args, syntax).Called?;
        } else {
          assert PrepareHaltingMachine(args, syntax) == Rejected(InvalidHaltingArguments);
        }
      }
    }
  }

  /** A call of the halting machine takes as x-values exactly the tokens
      before the first "--", converted in order, and as depth the one token
      after it, converted to an integer. */
  lemma HaltingMachineCallShape(args: seq<string>, syntax: NumberSyntax)
    requires Prepare("halting_machine", args, syntax).Called?
    ensures "--" in args
    ensures var separator := IndexOf(args, "--");
      var call := Prepare("halting_machine", args, syntax).call;
      && call.HaltingMachineCall?
      && |args| == separator + 2
      && "--" !in args[..separator]
      && |call.xValues| == separator
      && (forall k :: 0 <= k < separator ==> NumberOf(args[k], syntax) == Some(call.xValues[k]))
      && syntax.intOf(args[separator + 1]) == Some(call.depth)
  {
  }

  /** Conversely, x-value tokens without a "--", a "--" and one depth token
      make a call whenever every token converts, and an error otherwise. */
  lemma {:induction false} HaltingMachineAccepts(xTokens: seq<string>, depthToken: string, syntax: NumberSyntax)
    requires "--" !in xTokens
    ensures var outcome := Prepare("halting_machine", xTokens + ["--", depthToken], syntax);
      if (forall k :: 0 <= k < |xTokens| ==> NumberOf(xTokens[k], syntax).Some?) && syntax.intOf(depthToken).Some?
      then outcome.Called? && outcome.call.HaltingMachineCall?
        && |outcome.call.xValues| == |xTokens|
        && (forall k :: 0 <= k < |xTokens| ==> NumberOf(xTokens[k], syntax) == Some(outcome.call.xValues[k]))
        && outcome.call.depth == syntax.intOf(depthToken).value
      else outcome == Rejected(InvalidHaltingArguments)
  {
    var args := xTokens + ["--", depthToken];
    assert args[|xTokens|] == "--";
    assert IndexOf(args, "--") == |xTokens|;
    assert args[..|xTokens|] == xTokens;
    assert args[|xTokens| + 1..] == [depthToken];
  }

  /** complex_logic needs four arguments; it reads the first two as Booleans
      and passes the next two through, ignoring any further ones. */
  lemma ComplexLogicArguments(args: seq<string>, syntax: NumberSyntax)
    ensures Prepare("complex_logic", args, syntax).Rejected? <==> |args| < 4
    ensures |args| >= 4 ==>
      && Prepare("complex_logic", args, syntax) == Prepare("complex_logic", args[..4], syntax)
      && Prepare("complex_logic", args, syntax).call.start.operator == args[2]
      && Prepare("complex_logic", args, syntax).call.operation == args[3]
      && (Prepare("complex_logic", args, syntax).call.start.p <==> Lower(args[0]) in ["1", "t", "yes"])
      && (Prepare("complex_logic", args, syntax).call.start.q <==> Lower(args[1]) in ["1", "t", "yes"])
  {
    if |args| >= 4 {
      ParseBoolAccepts(args[0]);
      ParseBoolAccepts(args[1]);
    }
  }

  /** complex_coinflip never fails: no arguments call it with its default
      coins (both true, see `ComplexLogic.CoinFlip`), otherwise both coins are
      passed, the second as `None` when only one argument is given. */
  lemma CoinFlipArguments(args: seq<string>, syntax: NumberSyntax)
    ensures Prepare("complex_coinflip", args, syntax).Called?
    ensures var coins := Prepare("complex_coinflip", args, syntax).call.coins;
      && (|coins| == 0 <==> args == [])
      && (args != [] ==> |coins| == 2 && coins[0] == Some(ParseBool(args[0])))
      && (args != [] ==> (coins[1] == None <==> |args| == 1))
      && (|args| > 1 ==> coins[1] == Some(ParseBool(args[1])))
  {
  }

  /** The commands handled generically. */
  predicate IsGeneric(command: string) {
    command in FunctionMap && FunctionMap[command] !in {HaltingMachine, ComplexLogicFunction, ComplexCoinflip}
  }

  /** A generic command looks at its first four arguments only: later ones
      neither reach the call nor cause an error. */
  lemma GenericUsesFirstFour(command: string, args: seq<string>, syntax: NumberSyntax)
    requires IsGeneric(command)
    requires |args| > GenericLimit
    ensures Prepare(command, args, syntax) == Prepare(command, args[..GenericLimit], syntax)
  {
  }

  /** A generic command is called with one number per argument it looks at,
      the infinity tokens becoming infinities whatever the number syntax;
      it is rejected exactly when one of those arguments does not convert. */
  lemma GenericCallShape(command: string, args: seq<string>, syntax: NumberSyntax)
    requires IsGeneric(command)
    ensures var outcome := Prepare(command, args, syntax);
      && (outcome.Rejected? <==>
            exists k :: 0 <= k < |args| && k < GenericLimit && args[k] !in InfinityTokens && NumberOf(args[k], syntax).None?)
      && (outcome.Called? ==>
            && outcome.call == NumericCall(FunctionMap[command], outcome.call.args)
            && |outcome.call.args| == |Limited(args)|
            && |Limited(args)| == (if |args| < GenericLimit then |args| else GenericLimit)
            && (forall k :: 0 <= k < |outcome.call.args| ==>
                  Some(outcome.call.args[k]) == GenericArgumentOf(args[k], syntax))
            && forall k :: 0 <= k < |outcome.call.args| && args[k] in InfinityTokens ==>
                 outcome.call.args[k] == FloatNumber(Infinity(args[k] == "-inf")))
  {
  }

  /** The halting machine's x-values do not recognise the infinity tokens:
      they hold neither '.' nor 'e', so they go to the integer conversion. */
  lemma XValuesIgnoreInfinityTokens(token: string, syntax: NumberSyntax)
    requires token in InfinityTokens
    ensures NumberOf(token, syntax).Some? <==> syntax.intOf(token).Some?
  {
  }

  /** Each error is reported only by the command it belongs to. */
  lemma ErrorsBelongToTheirCommand(command: string, args: seq<string>, syntax: NumberSyntax)
    ensures var outcome := Prepare(command, args, syntax);
      && (outcome.Rejected? && outcome.error in {MissingSeparator, DepthNotSingle, InvalidHaltingArguments} ==>
            command == "halting_machine")
      && (outcome == Rejected(NotEnoughLogicArguments) ==> command == "complex_logic")
      && (outcome == Rejected(InvalidArgument) ==> IsGeneric(command))
      && (command == "complex_coinflip" ==> outcome.Called?)
  {
  }

  /** The front end (`blackboard`) as the script runs it: early returns on
      every error, and the generic arguments appended one at a time. */
  method Blackboard(command: string, args: seq<string>, syntax: NumberSyntax) returns (outcome: Outcome)
    ensures outcome == Prepare(command, args, syntax)
  {
    if command !in FunctionMap {
      return Rejected(UnknownCommand);
    }
    var func := FunctionMap[command];
    if func == HaltingMachine {
      if "--" !in args {
        return Rejected(MissingSeparator);
      }
      var separatorIndex := IndexOf(args, "--");
      var xValuesArgs := args[..separatorIndex];
      var depthArg := args[separatorIndex + 1..];
      if |depthArg| != 1 {
        return Rejected(DepthNotSingle);
      }
      var xValues := ConvertEach(XValue, xValuesArgs, syntax);
      var depth := syntax.intOf(depthArg[0]);
      if xValues.None? || depth.None? {
        return Rejected(InvalidHaltingArguments);
      }
      outcome := Called(HaltingMachineCall(xValues.value, depth.value));
    } else if func == ComplexLogicFunction {
      if |args| >= 4 {
        var p, q := ParseBool(args[0]), ParseBool(args[1]);
        var operator, operation := args[2], args[3];
        outcome := Called(ComplexLogicCall(ComplexLogic.State(p, q, operator), operation));
      } else {
        return Rejected(NotEnoughLogicArguments);
      }
    } else if func == ComplexCoinflip {
      var coin1 := if |args| > 0 then Some(ParseBool(args[0])) else None;
      var coin2 := if |args| > 1 then Some(ParseBool(args[1])) else None;
      outcome := Called(CoinFlipCall(if |args| > 0 then [coin1, coin2] else []));
    } else {
      var limited := if |args| <= GenericLimit then args else args[..GenericLimit];
      var prepared: seq<Number> := [];
      for i := 0 to |limited|
        invariant |prepared| == i
        invariant forall k :: 0 <= k < i ==> GenericArgumentOf(limited[k], syntax) == Some(prepared[k])
      {
        var arg := limited[i];
        if arg in InfinityTokens {
          prepared := prepared + [FloatNumber(Infinity(arg == "-inf"))];
        } else {
          var number := NumberOf(arg, syntax);
          if number.None? {
            assert Convert(GenericArgument, limited[i], syntax).None?;
            return Rejected(InvalidArgument);
          }
          prepared := prepared + [number.value];
        }
      }
      assert forall k :: 0 <= k < |limited| ==> Convert(GenericArgument, limited[k], syntax) == Some(prepared[k]);
      assert ConvertEach(GenericArgument, limited, syntax).value == prepared;
      outcome := Called(NumericCall(func, prepared));
    }
  }
}
