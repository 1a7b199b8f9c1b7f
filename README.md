# Complex-Boolean state machine and command-line front end of the halting-machine script

The script `_Halting_Machine_/h.py` is mostly floating-point trigonometry. Two
discrete pieces of it are modelled and proved here:

- **The complex-Boolean state machine** (module `ComplexLogic`, file
  `complex_logic.dfy`). A state is two Boolean components `p`, `q` and a
  connective string. `complex_logic` applies one of three operations:
  - `inegation` keeps both components.
  - `irotation` negates `p`.
  - `negation` negates `p` and `q`.
  - Each of them turns "and" into "or" and every other connective into "and".
  - Any other operation name gives `None`.

  `complex_coinflip` starts from the two coins joined by "and" and applies a
  fixed eight-step schedule, each step to the previous result. The model is a
  pure function `Apply`, its fold `Run`, and an imperative `CoinFlip` method
  whose loop reassigns `p`, `q` and the connective as the script does and
  returns the nine states it reports.
- **The command-line front end** `blackboard` (module `CommandLine`, file
  `command_line.dfy`). It looks the command up in the command table and
  prepares the arguments:
  - `halting_machine` takes the x-values before the first `--` and exactly one
    depth after it.
  - `complex_logic` reads two Boolean tokens, a connective and an operation;
    later arguments are ignored.
  - `complex_coinflip` reads the first two arguments as Boolean tokens; later
    arguments are ignored.
  - Every other command reads the first four arguments as numbers or infinity
    tokens; later arguments are ignored.

  `Prepare` is the specification: the error reported, or the call made.
  `Blackboard` is the imperative method with early returns and an appending
  loop, proved equal to `Prepare`. Converting a string to an integer or a
  float is a parameter (`NumberSyntax`): two parsers that may fail.

`wrappers.dfy` holds the `Option` type.

## Model

| member | source | states |
|---|---|---|
| `ComplexLogic.SwapOperator` | _Halting_Machine_/h.py:381 | the new connective is always "and" or "or", always differs from the old one, and is "or" exactly when the old one was "and" |
| `ComplexLogic.Apply` | _Halting_Machine_/h.py:357-393 | a state is produced exactly for the three known operation names; `p` changes exactly when the operation is not `inegation`, `q` exactly when it is `negation`; the connective is swapped |
| `ComplexLogic.ApplyTwiceRestores` | _Halting_Machine_/h.py:378-392 | applying a known operation twice restores `p` and `q`, and restores the whole state exactly when the connective is "and" or "or" (any other connective comes back as "or") |
| `ComplexLogic.Run` | _Halting_Machine_/h.py:407-410 | feeding each result into the next operation succeeds exactly when every operation in the list is known |
| `ComplexLogic.RunFlips` | _Halting_Machine_/h.py:378-410 | after a run, `p` is negated once per non-`inegation` step, `q` once per `negation`, and the connective once per step (an "and"/"or" connective is back after an even number of steps) |
| `ComplexLogic.ScheduleReturns` | _Halting_Machine_/h.py:400-410 | the eight-step schedule always succeeds, and it ends at its start exactly when the connective starts as "and" or "or" |
| `ComplexLogic.StepsAreRun` | _Halting_Machine_/h.py:407-410 | a trace in which each state is the previous one with the next operation applied ends where `Run` ends |
| `ComplexLogic.ScheduleVisitsAllUnits` | _Halting_Machine_/h.py:395-410 | the states after 0, 2, 4 and 6 steps are the four complex units, one each; from T∧T they are 1, i, -1, -i and then 1 again |
| `ComplexLogic.CoinFlip` | _Halting_Machine_/h.py:396-411 | both coins default to true; the reported states start from the coins and "and", each is the schedule's next operation applied to the previous one, the last equals the first, and all four units are visited |
| `CommandLine.Lower` | _Halting_Machine_/h.py:465 | lower-casing keeps the length, leaves no upper-case letter, maps each upper-case letter to its lower-case letter and keeps every other character |
| `CommandLine.ParseBoolAccepts` | _Halting_Machine_/h.py:465-474 | a Boolean token is true exactly when its lower-cased form is "1", "t" or "yes"; "true" and "True" are false |
| `CommandLine.NumberOf` | _Halting_Machine_/h.py:484 | a converted number is a float exactly when its token holds '.' or an 'e' of either case, otherwise an integer |
| `CommandLine.NumberOfConsultsOneParser` | _Halting_Machine_/h.py:484 | the token's spelling alone picks the conversion: syntaxes that agree on that one conversion of the token give the same result, whatever the other conversion does |
| `CommandLine.GenericArgumentOf` | _Halting_Machine_/h.py:479-484 | each infinity token converts, to an infinity that is negative exactly when the token starts with '-' |
| `CommandLine.GenericExtendsNumber` | _Halting_Machine_/h.py:479-484 | every token a number argument accepts is accepted as a generic argument too; the infinity tokens are accepted even when both conversions reject every string, and mean the same under every syntax; any other token converts as a number |
| `CommandLine.ConvertEach` | _Halting_Machine_/h.py:454 | converting a list of tokens succeeds exactly when every token converts, and gives each token's value in order |
| `CommandLine.IndexOf` | _Halting_Machine_/h.py:446 | the position returned holds the separator and no earlier position does |
| `CommandLine.UnknownCommandCallsNothing` | _Halting_Machine_/h.py:436-439 | the outcome is the unknown-command error, with no call, exactly when the command is not in the table |
| `CommandLine.HaltingMachineNeedsSeparator` | _Halting_Machine_/h.py:443-445 | the halting machine reports a missing separator exactly when no argument is `--` |
| `CommandLine.HaltingMachineSingleDepth` | _Halting_Machine_/h.py:446-451 | with a separator present, the depth-count error is reported exactly when the arguments do not end one token after the first `--` |
| `CommandLine.HaltingMachineCallShape` | _Halting_Machine_/h.py:441-461 | every halting-machine call has as x-values exactly the converted tokens before the first `--`, and as depth the integer value of the single token after it |
| `CommandLine.HaltingMachineAccepts` | _Halting_Machine_/h.py:441-461 | x-value tokens without `--`, then `--`, then one depth token, give a call when every token converts and the conversion error otherwise |
| `CommandLine.ComplexLogicArguments` | _Halting_Machine_/h.py:462-470 | `complex_logic` is rejected exactly when fewer than four arguments are given; otherwise `p` and `q` are true exactly when the first and second tokens lower-case to "1", "t" or "yes", the third and fourth tokens unchanged, and further arguments are ignored |
| `CommandLine.CoinFlipArguments` | _Halting_Machine_/h.py:471-475 | `complex_coinflip` is always called: with no arguments when none are given, otherwise with two coins, the first parsed from the first token, the second `None` exactly when only one argument is given and parsed from the second token otherwise |
| `CommandLine.GenericUsesFirstFour` | _Halting_Machine_/h.py:476-478 | for a generic command, arguments after the fourth change nothing |
| `CommandLine.GenericCallShape` | _Halting_Machine_/h.py:476-487 | a generic command is rejected exactly when one of its first four arguments is neither an infinity token nor a number; otherwise it is called with one value per such argument, each the argument's own conversion (an infinity token as an infinity whatever the number syntax, any other token as a float or an integer by its spelling) |
| `CommandLine.XValuesIgnoreInfinityTokens` | _Halting_Machine_/h.py:454 | an x-value spelled like an infinity token goes to the integer conversion, since it holds neither '.' nor 'e' |
| `CommandLine.ErrorsBelongToTheirCommand` | _Halting_Machine_/h.py:436-487 | the separator, depth and halting-conversion errors come only from `halting_machine`, the argument-count error only from `complex_logic`, the numeric-argument error only from generic commands, and `complex_coinflip` never fails |
| `CommandLine.Blackboard` | _Halting_Machine_/h.py:421-488 | the imperative front end, with its early returns and appending loop, has exactly the outcome `Prepare` specifies |

## Left out

- The trigonometric, sigmoid, arctan and reciprocal functions (`halt`, `loop`, `q_inverse`, `h_arctan`, `h_sigmoid`, the `qn_*` functions and their `*_const` wrappers) and `round_to_limits`: floating-point numerics over the math library.
- The `halting_machine` iteration: it only feeds float results into float functions and prints them.
- Console output, `sys.argv` handling, `main` and `test`. `CoinFlip` returns the states it would print instead of printing them.
- `_Halting_Machine_/hashfile.py` is not part of this model. It is file I/O around SHA-256 and document-text extraction libraries.
- The integer and float string grammars: `NumberSyntax` stands for them as two parsers that may fail. Float values other than the infinities are abstract.
- `Blackboard`: the model stops at the call `func(*prepared_args)`. It does not model running the called function or the result it prints. The errors the called float functions can raise are not modelled either: for example a division by zero in `q_inverse` when `x*a + y*b` is zero but `x + y` is not, or an overflow of the exponential in `h_sigmoid`.
- `CoinFlip` takes Boolean coins. A `None` second coin, which the front end passes when given one argument, is recorded in `CoinFlipCall` but not run through the state machine. The script does run it: `inegation` and `irotation` keep `None`, and `negation` turns it into `True`. So with one argument the script's trace ends at (coin1, False, "and") and does not return to its start. The return to the start that `CoinFlip` proves holds only for the zero- and two-argument command lines.
- `Lower`: only ASCII letters are lower-cased, whereas the script's lower-casing covers all of Unicode. No other character lower-cases to one of the letters the comparisons look for.
- The text of the error messages (including the conversion error's own message) is reduced to one `Error` value per message.
