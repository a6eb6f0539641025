# Schemy in Dafny

A model of the core of Schemy, a small Scheme interpreter written in Python,
with proofs about it. The model covers these parts:

- **Reader** (`schemy/tokenizer.py`). `tokenize` pads parentheses with spaces
  and splits on whitespace. `read_from_tokens` is a recursive-descent parser.
  It pops tokens off the front of a shared list. `atom` reads an int, else a
  float, else a symbol. `parse` chains the two. `schemy/schemy.py:1-37` holds
  the same four function bodies, with `Symbol = str`. The one model
  covers both files.
- **Printer** (`schemestr` of `schemy/repl.py`). It is paired with the reader
  by a round-trip proof.
- **Token buffer** (`schemy/buffer.py`). This is a class whose `pop` and
  `current` move a cursor over lines of tokens. More lines are pulled from a
  source on demand.
- **Environment chain** (`schemy/environments.py`). This is a class `Frame`.
  Each frame holds a dictionary of bindings and a parent frame.
- **Value model** (`schemy/types.py` and `schemy/exception.py`). It covers
  truthiness, the default type predicates and operations of `SchemeValue`,
  the singletons, `scheme_coerce`, `get_actual_value`, `bad_type` and
  `check_type`.
- **Procedure protocol** (`schemy/procedure.py`). `apply` answers either
  "done, with this value" or "continue by evaluating this expression in this
  frame". Arguments are evaluated eagerly, or passed by name as thunks.
- **Evaluator** (`schemy/eval.py`). `evaluate` handles the forms `quote`,
  `if`, `define`, `set!` and `lambda`, plus closure application. Module
  `Evaluator` states it as functions over a store of frames. Module
  `EvaluatorLaws` proves one law per form about those functions. The class
  `Interpreters.Interpreter` is the recursive procedure itself. It writes
  `define` and `set!` into its frames in place, and each of its methods is
  proved equal to the function of the same form.

The model's conventions:

- A Python exception is the `Error` value in a `Result`.
- Calls into code that is not shown become parameters:
  - the evaluator `scheme_eval` that `procedure.py` imports;
  - the Python function behind a primitive;
  - `scnum`, `intern` and `str(float)`;
  - the host functions of the global environment.
- Python's recursion limit is a fuel bound. Running out of fuel raises
  `RecursionError`.

## Model

| member | source | states |
|---|---|---|
| `Tokenizer.Tokenize` | schemy/tokenizer.py:7-8 | Every token is non-empty and contains no whitespace. A parenthesis is always a token of its own. The tokens joined together are exactly the non-whitespace characters of the input, in order. |
| `Tokenizer.TokenizeIsLex` | schemy/tokenizer.py:7-8 | The two `replace` calls followed by `split()` give the same tokens as an independent one-pass lexer. |
| `Tokenizer.LexTokensWellFormed` | schemy/tokenizer.py:7-8 | The one-pass lexer only produces non-empty, whitespace-free tokens, and a parenthesis is always alone. |
| `Tokenizer.LexConcat` | schemy/tokenizer.py:7-8 | The lexer loses no character other than whitespace. |
| `Tokenizer.TokenizeAtomAndNil` | tests/test_tokenizer.py:11-15 | `tokenize('1')` is `['1']` and `tokenize('()')` is `['(', ')']`. |
| `Tokenizer.TokenizeSum` | tests/test_parser.py:8 | `tokenize('(+ 1 2)')` is `['(', '+', '1', '2', ')']`. tests/test_tokenizer.py:17-18 and tests/test_schemy.py:8 assert the same. |
| `Reader.Atom` | schemy/tokenizer.py:27-34 | The result is an int exactly when `int(token)` succeeds, and then it has that value. It is a float (its literal text kept) exactly when `int` fails and `float` succeeds. Otherwise it is the symbol with the token's own text. It is never a list. |
| `Reader.AtomOfInteger` | tests/test_tokenizer.py:25 | `atom('10')` is the int 10. |
| `Reader.AtomOfFloat` | tests/test_tokenizer.py:26 | `atom('10.123')` is the float literal `10.123`. |
| `Reader.AtomOfName` | tests/test_tokenizer.py:27 | `atom('define')` is the symbol `define`. |
| `Reader.AtomOfWord` | schemy/schemy.py:30-37 | A token that cannot start a number reads as the symbol whose text is the token itself (`Symbol = str`, schemy.py:1). |
| `Reader.AtomTokenReadsBack` | schemy/tokenizer.py:27-34 | The token an atom is written as reads back as that atom, and it is never a parenthesis. |
| `Reader.ReadExp` | schemy/tokenizer.py:11-24 | What is left of the token list afterwards is a suffix of it. When the list was not empty, at least one token was consumed, whether the call returned or raised. |
| `Reader.ReadItems` | schemy/tokenizer.py:16-19 | The group loop also leaves a suffix and consumes at least one token. |
| `Reader.ReadFromTokens` | schemy/tokenizer.py:11-24 | This is the recursive method that pops from a shared token list in place. The value it returns or raises, and the list it leaves, are those of `ReadExp`. |
| `Reader.Parse` | schemy/tokenizer.py:37-38 | A blank program raises "unexpected EOF while reading". A program whose first non-space character is `)` raises "unexpected )". One that starts with any other non-parenthesis reads a single atom, and whatever follows it is ignored. |
| `Reader.ParseProgram` | schemy/schemy.py:10-11 | Running the in-place reader on the tokens of a program gives `Parse` of that program. |
| `Reader.ReadTokens` | schemy/tokenizer.py:14-20 | Reading the tokens of any readable expression, followed by anything, gives the expression back. The group consumes exactly up to its matching `)`, and the tokens after it are untouched. |
| `Reader.ReadTokensOf` | schemy/tokenizer.py:16-19 | The loop reads a group's elements in order and pops its closing `)`. |
| `Reader.ReadErrors` | schemy/tokenizer.py:12-13 | An empty list raises "unexpected EOF while reading". A leading `)` raises "unexpected )" and consumes only that token (also tokenizer.py:21-22 and schemy.py:15-16, 24-25). |
| `Reader.MissingCloseIsIndexError` | schemy/tokenizer.py:17 | A group whose `)` is missing fails with an IndexError from `tokens[0]`, not with the EOF error. |
| `Printer.Show` | schemy/repl.py:9-13 | A list prints as text that starts with `(` and ends with `)`. |
| `Printer.ShowNil` | schemy/repl.py:10-11 | The empty list prints as `()`. |
| `Printer.ShowThree` | schemy/repl.py:10-11 | A three-element list prints as `(`, then the elements' printed forms separated by single spaces, then `)`. |
| `Printer.ShowBalanced` | schemy/repl.py:10-11 | Printed output has balanced parentheses, nested lists included, whenever the atoms print without parentheses. |
| `Numerals.IntTextRoundTrip` | schemy/repl.py:12-13 | An int prints as `str(n)`, and `int` of that text is `n` again. |
| `Printer.ParseShow` | schemy/repl.py:9-13 | Round trip: for any tree of ints and word symbols, `parse(schemestr(x)) == x`. |
| `Printer.ShowBegin` | schemy/repl.py:9-13 | The tree of the `begin` example prints as `(begin (define r 10) (* pi (* r r)))`. |
| `Printer.ParseBegin` | tests/test_schemy.py:10-13 | The `begin` program parses to `['begin', ['define', 'r', 10], ['*', 'pi', ['*', 'r', 'r']]]`. tests/test_tokenizer.py:29-32 asserts the same. |
| `Buffers.CurrentStep` | schemy/buffer.py:45-57 | While the cursor is inside the current line, `current()` returns the element at the cursor and changes nothing. When it returns an element, the cursor is inside the current line and the element is at the cursor. It returns `None` exactly when the line is used up and every line left in the source is empty; the fields are then reset and the source drained. The pulled lines followed by the unpulled ones never change, and pulled lines are only appended. |
| `Buffers.CurrentIdempotent` | schemy/buffer.py:45-57 | Two `current()` calls with no `pop()` between them return the same element, and the second changes nothing. |
| `Buffers.PopStep` | schemy/buffer.py:33-39 | After a `pop()` that returns an element, the cursor is just past that element and still within the line. A `pop()` that returns `None` leaves the source empty and the cursor at 1 on an empty line. |
| `Buffers.PopAdvances` | schemy/buffer.py:33-39 | A `pop()` that returns an element returns what `current()` returns, then moves exactly one place along the same line. |
| `Buffers.CurrentStream` | schemy/buffer.py:45-57 | `current()` returns the first element still to come: the rest of the current line, then the source's lines in order, so empty lines are skipped. It returns `None` exactly when nothing is left, and it hands nothing out. |
| `Buffers.PopStream` | schemy/buffer.py:33-39 | `pop()` returns the first element still to come, or `None` once nothing is left, and the elements still to come lose exactly that first one. |
| `Buffers.PopsStream` | schemy/buffer.py:33-57 | Successive pops return the rest of the current line followed by every line of the source, element by element, and `None` after that. |
| `Buffers.PopKeepsLines` | schemy/buffer.py:52-53 | Every line pulled from the source is appended to `lines` in source order, and nothing is lost. |
| `Buffers.Buffer.constructor` | schemy/buffer.py:26-31 | A new buffer's fields are those of the initial state after the first `current()`. |
| `Buffers.Buffer.Pop` | schemy/buffer.py:33-39 | The method's result and new fields are those `PopStep` gives for the old fields. It returns the first element still to come, or `None` when nothing is left, and afterwards exactly that element has been handed out. |
| `Buffers.Buffer.MoreOnLine` | schemy/buffer.py:41-43 | True exactly when the cursor is inside the current line. |
| `Buffers.Buffer.Current` | schemy/buffer.py:45-57 | The loop's result and new fields are those `CurrentStep` gives for the old fields. It returns the first element still to come, skipping empty lines, or `None` when nothing is left, and hands nothing out. |
| `Buffers.ExampleSteps` | schemy/buffer.py:14-20 | On `[['(', '+'], [15], [12, ')']]` two pops give `(` and `+`, and then `current()` gives 15. |
| `Buffers.Example` | schemy/buffer.py:14-20 | The same doc-test, run on a `Buffer` object. |
| `Buffers.CurrentAsWritten` | schemy/buffer.py:41-57 | As written, `current()` returns `None` and leaves the source empty, whatever the state. |
| `Buffers.AsWrittenDrains` | schemy/buffer.py:41-57 | As written, `current()` always pulls every line of the source and returns `None`. |
| `Buffers.ExampleAsWritten` | schemy/buffer.py:14-20 | As written, the doc-test's first `pop()` gives `None` where `(` is documented. |
| `Environments.BindLast` | schemy/environments.py:51-53 | After the define loop, the k-th formal is bound to the k-th value unless a later formal has the same name. |
| `Environments.BindKeeps` | schemy/environments.py:51-53 | A name that is not a formal keeps whatever binding it had. |
| `Environments.BindDistinct` | schemy/environments.py:49-53 | With distinct formals, the new frame binds formal k to value k and nothing else. |
| `Environments.Frame.constructor` | schemy/environments.py:10-13 | A new frame has no bindings and the given parent. |
| `Environments.Frame.Equals` | schemy/environments.py:22-23 | `__eq__` holds only against a frame, and only one at the same depth of its chain. |
| `Environments.Frame.EqualsIffSameDepth` | schemy/environments.py:22-23 | Two frames are `==` exactly when their parent chains have the same length, whatever they bind. |
| `Environments.Frame.Lookup` | schemy/environments.py:25-34 | A local binding is returned as is. Any failure is "unknown identifier: sym". |
| `Environments.Frame.LookupIsVisible` | schemy/environments.py:29-34 | `lookup` answers from the nearest frame of the chain that binds the symbol, so inner bindings shadow outer ones. |
| `Environments.Frame.LookupFailsIffUnbound` | schemy/environments.py:33-34 | `lookup` fails exactly when no frame of the chain binds the symbol. |
| `Environments.Frame.Define` | schemy/environments.py:58-63 | Only the local dictionary changes: `sym` is bound to `val`, and an old local binding is overwritten. Afterwards `lookup(sym)` gives `val`, and every other lookup is unchanged. |
| `Environments.Frame.Root` | schemy/environments.py:36-41 | The root frame has no parent and is this frame or one of its ancestors. |
| `Environments.Frame.GlobalFrame` | schemy/environments.py:36-41 | The loop that follows parents returns the root frame. |
| `Environments.Frame.RootOfRoot` | schemy/environments.py:36-41 | The global frame of the global frame is itself. |
| `Environments.Frame.MakeCallFrame` | schemy/environments.py:43-55 | A length mismatch raises "different number of formal parameters and args". Otherwise the result is a fresh frame whose parent is this frame and whose bindings are the formals zipped with the values. |
| `Environments.Frame.MakeCallFrameAsWritten` | schemy/environments.py:43-55 | As written, the caller receives `None` whenever the lengths agree. |
| `Values.OnlyFalseIsFalse` | schemy/types.py:15-22 | States `Values.Truthy`: every value is true in a condition except `scheme_false` (types.py:205-206). |
| `Values.TypeNameIdentifiesClass` | schemy/exception.py:11-12 | The class name an error message reports tells the classes apart. |
| `Values.SingletonText` | schemy/types.py:180-218 | Exactly the two booleans print as `#` followed by one character. |
| `Exceptions.BadType` | schemy/exception.py:9-12 | `bad_type` never returns; it raises a SchemeError whose message is longer than the class part. |
| `Exceptions.BadTypeMessageParts` | schemy/exception.py:11-12 | The message starts with "argument k of name" and ends with "(class name)". |
| `Exceptions.CheckType` | schemy/exception.py:15-22 | `check_type` returns `val` unchanged exactly when the predicate's answer is a true value. Otherwise it raises the `bad_type` error. |
| `Types.Ask` | schemy/types.py:33-64 | Every type predicate answers `scheme_true` or `scheme_false`. |
| `Types.BooleanPIff` | schemy/types.py:33-34 | `booleanp` is true exactly for `scheme_true` and `scheme_false` (types.py:193-194, 208-209). |
| `Types.DefaultPredicatesFalse` | schemy/types.py:57-64 | `pairp`, `nullp`, `listp`, `stringp`, `symbolp`, `numberp` and `integerp` answer `scheme_false` (also types.py:124-134). |
| `Types.CheckBoolean` | schemy/types.py:193-194 | Checking a value against `booleanp` accepts exactly the two booleans. |
| `Types.CheckDefaultFails` | schemy/types.py:124-134 | Checking a value against a default predicate always raises the wrong-type error. |
| `Types.Operate` | schemy/types.py:66-122 | Every default operation raises the wrong-type SchemeError for argument 0, naming the operation. |
| `Types.OperateIdentifiesOp` | schemy/types.py:66-122 | The error a default operation raises on a receiver tells which operation was called, whatever the second operand. |
| `Types.Cons` | schemy/types.py:112-113 | `cons` builds a pair of the receiver and the argument. |
| `Types.ActualValue` | schemy/types.py:156-161 | `get_actual_value` is the identity on every value except a thunk. A thunk evaluates its body in its frame on every call (procedure.py:98-99). |
| `Types.Coerce` | schemy/types.py:164-177 | A Scheme value is returned unchanged. Any `numbers.Number` (bool, int, float or complex) is converted by `scnum`, and a string by `intern`. Any other host value fails, with the AttributeError the code raises. |
| `Types.CoerceIdempotent` | schemy/types.py:164-177 | The result of `scheme_coerce` is a Scheme value, and coercing it again returns it unchanged. |
| `Procedures.Outcome` | schemy/types.py:145-152 | The pair `(x, None)` is a finished call with value `x`. `(expr, env)` asks the caller to evaluate `expr` in `env`. |
| `Procedures.EvalAll` | schemy/procedure.py:11-17 | Evaluation succeeds exactly when every operand evaluates. Order and length are kept, and argument i is the value of operand i. |
| `Procedures.EvalAllFirstError` | schemy/procedure.py:11-17 | A failure is the failure of the first operand that fails. |
| `Procedures.Thunks` | schemy/procedure.py:91-92 | Passing by name evaluates nothing. It gives one thunk per operand, in order, with no formals, closing over the calling frame. |
| `Procedures.ForcingThunksIsEvaluating` | schemy/procedure.py:98-99 | Fetching the actual values of those thunks gives what eager evaluation gives, failures included. |
| `Procedures.EvaluateArguments` | schemy/types.py:136-143 | A value that is not a procedure raises "attempt to call something of non-function type". A `nu` procedure makes thunks (procedure.py:91-92). Any other procedure evaluates every operand (procedure.py:11-17). |
| `Procedures.HostArgs` | schemy/procedure.py:40-42 | The arguments are passed in order, and the calling frame is appended last when `use_env` is set. |
| `Procedures.PrimitiveApply` | schemy/procedure.py:33-46 | A primitive returns `(func(*args), None)`. A host TypeError becomes a SchemeError with the same message, and other errors pass through. |
| `Procedures.PrimitiveNeverContinues` | schemy/procedure.py:46 | A primitive call never asks its caller to continue. |
| `Procedures.LambdaApply` | schemy/procedure.py:76-82 | A closure with no frame fails. A length mismatch raises. Otherwise a fresh child of the closure's frame binds the formals to the arguments. With tail recursion the result is `(body, frame)`; without it, the body is evaluated in that frame. |
| `Procedures.LambdaApplyAsWritten` | schemy/procedure.py:76-82 | As written, with tail recursion and matching lengths the call is read as finished, with the unevaluated body as its value. |
| `Procedures.Apply` | schemy/types.py:145-154 | A non-procedure raises "attempt to call something of non-function type". A primitive applies its host function (procedure.py:33-46). A closure (procedure.py:76-82) with no frame raises an AttributeError, and a length mismatch raises. Otherwise a fresh child of the closure's frame binds the formals to the arguments. With tail recursion the caller is asked to continue with the body in that frame; without it, the body is evaluated there. |
| `Procedures.LambdaEquals` | schemy/procedure.py:70-74 | `__eq__` holds only against a lambda procedure whose frame is missing exactly when this one's is, and at the same depth of its chain. |
| `Procedures.LambdaEqualsIff` | schemy/procedure.py:70-74 | Two procedures are `==` exactly when they have the same class, formals and body, and frames whose chains have the same length. |
| `Evaluator.Find` | schemy/eval.py:21 | A frame that `env.find` returns binds the key and is no newer than the current frame. |
| `Evaluator.FindIsVisible` | schemy/eval.py:20-21 | `find` locates the nearest binding frame, and finds nothing exactly when no frame of the chain binds the key. |
| `Evaluator.Lookup` | schemy/eval.py:20-21 | A symbol's value only refers to frames that exist in the store. |
| `Evaluator.Zip` | schemy/eval.py:16 | `update(zip(keys, vals))` fails exactly when a key that gets a value is a list. Otherwise the bound names are the old ones plus the keys that get a value. |
| `Evaluator.CallVars` | schemy/eval.py:16 | An int or float parameter list raises "object is not iterable". A symbol binds one name per character and never fails. A list fails exactly when a parameter that gets an argument is a list. |
| `Evaluator.Assign` | schemy/eval.py:33-36 | Writing `env[var]` changes only that frame's binding of `var`. The frame's outer frame and every other frame stay as they were. |
| `Evaluator.FalsyValues` | schemy/eval.py:29 | States `Evaluator.Truthy`: the test of `if` is false exactly for 0, a float equal to 0.0, the empty string or list, `False` and `None`. |
| `Evaluator.TinyFloatIsFalse` | schemy/eval.py:29 | The float `1e-n` is false for n >= 400, because `float` rounds it to 0.0, and true for n <= 300. |
| `Numerals.NegativePowerIsZero` | schemy/tokenizer.py:32 | `float("1e-n")` is 0.0 for n >= 400 and not 0.0 for n <= 300. |
| `Evaluator.ZipBinds` | schemy/eval.py:16 | With distinct, hashable parameters and as many arguments, parameter k is bound to argument k. |
| `Evaluator.Eval` | schemy/eval.py:19-43 | Evaluation, returned or raised, only adds frames. It never changes which frame is outer to which, keeps the store well formed, and returns a value whose frames exist. |
| `Evaluator.EvalIf` | schemy/eval.py:27-30 | The same store invariant holds for `if`. |
| `Evaluator.EvalDefine` | schemy/eval.py:31-33 | The same store invariant holds for `define`. |
| `Evaluator.EvalSet` | schemy/eval.py:34-36 | The same store invariant holds for `set!`. |
| `Evaluator.EvalApply` | schemy/eval.py:40-43 | The same store invariant holds for an application. |
| `Evaluator.EvalArgs` | schemy/eval.py:42 | One value per operand, each with its frames in the store. |
| `Evaluator.Call` | schemy/eval.py:15-16 | The same store invariant holds for a call. |
| `EvaluatorLaws.SymbolIsNearestBinding` | schemy/eval.py:20-21 | A symbol evaluates to its binding in the nearest frame that binds it. It fails when none does, and changes nothing. |
| `EvaluatorLaws.NumberIsItself` | schemy/eval.py:22-23 | A number evaluates to itself and changes nothing. |
| `EvaluatorLaws.QuoteIsOperand` | schemy/eval.py:24-26 | `(quote e)` is `e`, unevaluated, and changes nothing. |
| `EvaluatorLaws.IfTakesOneBranch` | schemy/eval.py:27-30 | The test is evaluated first, then only the branch it selects, in the same frame. |
| `EvaluatorLaws.UnderflowTakesAlternative` | schemy/eval.py:27-30 | `(if 1e-400 c a)` evaluates `a`, as does any `1e-n` with n >= 400. |
| `EvaluatorLaws.DefineBindsLocally` | schemy/eval.py:31-33 | `define` returns `None`, binds the name in the current frame only, and leaves every other frame alone. Afterwards the name looks up to the value. |
| `EvaluatorLaws.SetOverwritesFound` | schemy/eval.py:34-36 | `set!` evaluates the value, then overwrites the name in the frame `find` locates and leaves every other frame alone. It fails when no frame binds the name. |
| `EvaluatorLaws.LambdaCapturesFrame` | schemy/eval.py:37-39 | `lambda` returns a closure over the current frame, without evaluating the body. |
| `EvaluatorLaws.ApplicationOrder` | schemy/eval.py:40-43 | The operator is evaluated first, then the operands from left to right, then the call is made. The first failure is the outcome. |
| `EvaluatorLaws.ClosureCallBinds` | schemy/eval.py:15-16 | A closure call evaluates the body in a new frame. That frame's outer frame is the closure's, and it binds parameter k to argument k. |
| `EvaluatorLaws.EvalFuel` | schemy/eval.py:19-43 | An evaluation that does not hit the recursion limit gives the same answer and store with a larger limit. |
| `EvaluatorLaws.TenIsTen` | tests/test_eval.py:11 | `10` evaluates to 10. |
| `EvaluatorLaws.DefineThenRead` | tests/test_eval.py:14 | `(define r 10)` returns `None`, and `r` then evaluates to 10. |
| `EvaluatorLaws.OneNumberArgument` | schemy/eval.py:42 | A single numeric operand evaluates to itself. |
| `EvaluatorLaws.IdentityCall` | schemy/eval.py:15-16 | Calling `(lambda (x) x)` returns its argument. |
| `EvaluatorLaws.IdentityApplied` | schemy/eval.py:37-43 | `((lambda (x) x) 5)` evaluates to 5 in any frame, with any recursion limit of at least three. |
| `Interpreters.Interpreter.constructor` | schemy/eval.py:19 | The interpreter starts with one empty global frame. |
| `Interpreters.Interpreter.Evaluate` | schemy/eval.py:19-43 | The recursive procedure returns, and leaves the store, exactly as `Eval` says. |
| `Interpreters.Interpreter.EvaluateIf` | schemy/eval.py:27-30 | Likewise for `if`. |
| `Interpreters.Interpreter.EvaluateDefine` | schemy/eval.py:31-33 | Likewise for `define`, which writes the current frame in place. |
| `Interpreters.Interpreter.EvaluateSet` | schemy/eval.py:34-36 | Likewise for `set!`, which writes the frame `find` locates in place. |
| `Interpreters.Interpreter.EvaluateApply` | schemy/eval.py:40-43 | Likewise for an application. |
| `Interpreters.Interpreter.EvaluateArgs` | schemy/eval.py:42 | The loop over the operands agrees with `EvalArgs`, failures included. |
| `Interpreters.Interpreter.CallProcedure` | schemy/eval.py:15-16 | Calling a closure adds its frame to the store and evaluates the body there, as `Call` says. |

## Left out

- The floating-point value of a float literal. `atom` decides int, float or symbol as `int()` and `float()` accept text, but a float keeps its literal text. Only whether it is 0.0 is computed, because an `if` test depends on it; that uses Python's round-to-nearest, so a literal at most 2^-1075 is 0.0. The model assumes no `int_max_str_digits` limit (Python 3.11 on): there `int()` rejects a digit string longer than 4300 digits, so such a token is a float, and `str(int)` refuses such an int, which `Printer.Show` and `Numerals.IntTextRoundTrip` do not model. `str(float)` is a parameter of the printer, and the round trip covers ints and word symbols only. The float arithmetic of tests/test_schemy.py:15-17 is not modelled.
- `Buffer.__str__` (schemy/buffer.py:59-76) is display formatting with `math.log10`. `InputReader` and `LineReader` (buffer.py:84-113) prompt and print. Neither is modelled.
- The `repl` loop (schemy/repl.py:16-36) and all of schemy/utils.py are console I/O and host introspection.
- The buffer's source iterator is the sequence of lines it has not yet produced.
- `scbool` is a stub returning `None` (schemy/types.py:221-222). The predicates built on it (`notp`, `eqp`, `eqvp`, `equalp`, types.py:36-52) are not modelled.
- `print_repr` and the `__repr__` methods (other than `okay`'s) are not modelled. Neither is `str` of a lambda procedure or of a frame.
- Names the shown files use but never define are not part of this model:
  - `intern`, `scnum`, `Pair`, `nil`, `scheme_car` and `scheme_cdr`;
  - `Env` and `global_env`, and `scheme_eval` and `proper_tail_recursion`.

  A symbol is its string (`intern` is the identity). A Scheme list of formals or arguments is a sequence. `Pair` is a value with two fields that takes every default method. `scnum` and `intern` are parameters of `Types.Coerce`. `scheme_eval` is the parameter `ev`, and `proper_tail_recursion` is the parameter `tailRec`.
- `Frame.define`'s `isinstance(val, SchemeValue)` assertion holds by typing.
- Python `==` on values is structural here, as is dictionary-key equality in the evaluator, so `1` and `1.0` are different keys.
- Evaluator: the environment `Env(parms, args, outer)` of eval.py:16 is a frame in a store: a dictionary plus the index of its outer frame. Its constructor zips parameters with arguments and stops at the shorter. A symbol parameter list binds one name per character, and a number is not iterable. `env.find` on a name that no frame binds fails as calling `find` on `None` does, with an AttributeError. A list used as a name raises "unhashable type".
- Evaluator host functions cannot call back into `evaluate` and never return closures.
- Procedures: `ev` is a mathematical function of its arguments. A thunk that is fetched twice gives the same answer twice, so side effects of repeated evaluation are not modelled.
- Python's recursion limit is an explicit fuel bound. Running out raises `RecursionError`. The depth at which Python would stop is not modelled.
- Types.Coerce: a float or complex number is given by the real number(s) it stands for, not its IEEE 754 bits; `scnum` only passes it on.
- Types.Coerce: the error is the AttributeError that `.format` on an exception object raises (types.py:177). The intended TypeError text "cannot covert type ..." is not modelled.
- The tests that call a function `eval` that schemy/eval.py and schemy/schemy.py do not define (tests/test_eval.py, tests/test_schemy.py:15-17) are read as statements of intent. Only `10` and `(define r 10) r` are stated. As written, `(quote 10)` parses to the int 10, not the string `'10'`. `(if 10>5 10 5)` reads `10>5` as one symbol, which is unbound.
- The second example of tests/test_tokenizer.py:19-22 is not stated; it is covered by `Tokenizer.Tokenize` and `Tokenizer.TokenizeIsLex`.
- Reader.Atom: only the ASCII digits 0-9 count as digits. Python's `int()` and `float()` also accept the other Unicode decimal digits (`int("٣") == 3`), so such a token is an int or a float in Schemy but a symbol in the model.
- Values.SingletonText: states only which texts start with `#`; it does not relate the texts to `repr`.

## Findings

| source | as written | input that shows it | evidently intended | confidence | as-written member | corrected member |
|---|---|---|---|---|---|---|
| schemy/buffer.py:30 | `__init__` and `more_on_line` use `current_lines`, but `current` assigns `current_line`, so `more_on_line` is always false and `current()` drains the whole source and returns `None` | the doc-test `Buffer(iter([['(', '+'], [15], [12, ')']]))`: the first `pop()` gives `None` | one field `current_line`; `pop()` gives `(`, then `+`, then `current()` gives 15 | not executed | `Buffers.ExampleAsWritten` | `Buffers.ExampleSteps` |
| schemy/environments.py:43-55 | `make_call_frame` builds the frame but has no `return`, so callers receive `None` | `LambdaProcedure.apply` with tail recursion on any closure whose formals match the arguments: `(body, None)` is read as a finished call whose value is the unevaluated body | return the new frame, so the caller continues with the body in it | not executed | `Procedures.LambdaApplyAsWritten` | `Procedures.LambdaApply` |
