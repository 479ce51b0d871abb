# Kimi K2 chat-completion handler, modelled in Dafny

This project models the request handler of an OpenAI-style chat-completion
server. The server runs the Kimi K2 model split across several machines. The
handler, `chat_completions` in `kimi_k2_api_server.py`, does the following for
each request:

1. It flattens the chat history into one role-labelled prompt and strips
   surrounding whitespace from it.
2. It refuses prompts longer than 600000 characters with a 400.
3. It builds the `mlx.launch` command line and the child's environment.
4. It runs the launcher once and waits for it.
5. It turns a non-zero exit status into a 500.
6. It removes the generator's statistics footer (everything from the first
   `==========` on) and wraps the text in a fixed chat-completion envelope.
   Every usage count in that envelope is 0.

Modules, one per component of the handler:

- `Strings` (`strings.dfy`) holds the Python string operations the handler
  relies on:
  - `str.strip()`, over the full `str.isspace()` character set;
  - `endswith`, `in` and `split(sep)[0]`;
  - `str(int)`, with `int(str)` as its inverse.
- `Assembly` (`assembly.dfy`) holds prompt assembly:
  - `Step`, one turn of the loop;
  - `Transcript`, the left fold of `Step`;
  - `Prompt`, the stripped transcript;
  - `AssemblePrompt`, the loop itself as a method proved equal to `Prompt`.
- `Launch` (`launch.dfy`) holds:
  - launcher resolution;
  - the nine fixed worker arguments;
  - the child's working directory and environment.
- `Handler` (`handler.dfy`) holds:
  - the request defaults;
  - the size limit and the exit-status decision;
  - footer stripping and the envelope;
  - `Handle`, the whole handler as one function, and `ChatCompletions`, the
    handler as a method proved equal to it.

The handler's surroundings are parameters, never modelled code:

- The environment variables `MLX_LAUNCH` and `MLX_VENV_BIN`, and the server's
  own environment, are fields of `Launch.Config`.
- The executable-file test (`os.path.isfile` and `os.access`) is a predicate
  on paths in `Launch.Config`.
- `shlex.split` is a tokenizer function in `Launch.Config`.
- `subprocess.run` is a function from the launch specification to a
  `RunResult`: either an exit status with the captured stdout and stderr, or
  a raised exception with its message.

## Model

| member | source | states |
|---|---|---|
| `Strings.Strip` | kimi_k2_api_server.py:34 | `strip()` splits its input into leading whitespace, the result, and trailing whitespace; the result has no whitespace at either end |
| `Strings.StripAround` | kimi_k2_api_server.py:34 | whatever whitespace surrounds a trimmed string, `strip()` gives exactly that string back |
| `Strings.StripIdempotent` | kimi_k2_api_server.py:34 | stripping twice is the same as stripping once |
| `Strings.StripLineBreak` | kimi_k2_api_server.py:112 | a trailing line break after a trimmed string is removed by `strip()` and nothing else is |
| `Strings.FindFirst` | kimi_k2_api_server.py:110-112 | returns an index where the pattern occurs with no earlier occurrence, or none exactly when the pattern occurs nowhere |
| `Strings.BeforeFirst` | kimi_k2_api_server.py:112 | `split(sep)[0]` is the whole input when the separator does not occur; otherwise it is the prefix that ends exactly where the separator first occurs, with no occurrence starting inside it |
| `Strings.IntToDecimal` | kimi_k2_api_server.py:56 | `str(n)` is non-empty and starts with `-` exactly when `n` is negative |
| `Strings.IntToDecimalCanonical` | kimi_k2_api_server.py:56 | `str(n)` is an optional minus sign followed by at least one digit, with no leading zero unless it is `"0"` for 0 |
| `Strings.IntToDecimalRoundTrip` | kimi_k2_api_server.py:56 | `str(max_tokens)` reads back as the same integer, as the worker's integer `--max-tokens` option does (kimi_k2_distributed.py:16) |
| `Assembly.Prompt` | kimi_k2_api_server.py:20-34 | the assembled prompt has no leading or trailing whitespace, and an empty message list gives `""` |
| `Assembly.AssemblePrompt` | kimi_k2_api_server.py:20-34 | the accumulating loop, followed by `strip()`, yields exactly the prompt of the left fold of the per-role rules (`Assembly.Step` is one turn, `Assembly.Transcript` the fold before stripping) |
| `Assembly.RoleRules` | kimi_k2_api_server.py:24-31 | system appends `"System: " + content + "\n\n"`; assistant appends `"\n\nAssistant: " + content`; user appends `"User: " + content`, preceded by `"\n\n"` exactly when the text so far is non-empty and does not end in `"\n\n"`; any other role appends nothing; `Assembly.Step` is that one turn and `Assembly.Transcript` its left fold from `""` |
| `Assembly.TranscriptExtends` | kimi_k2_api_server.py:21-31 | assembly only appends: the transcript of every prefix of the history is a prefix of the full transcript |
| `Assembly.UnknownRolesIgnored` | kimi_k2_api_server.py:21-31 | removing every message whose role is not system, user or assistant leaves the transcript and the prompt unchanged |
| `Assembly.SingleUserPrompt` | kimi_k2_api_server.py:20-34 | `[user "Hi"]` gives `"User: Hi"` |
| `Assembly.SystemThenUserPrompt` | kimi_k2_api_server.py:20-34 | `[system "S", user "U"]` gives `"System: S\n\nUser: U"` |
| `Assembly.UnknownOnlyPrompt` | kimi_k2_api_server.py:21-34 | a history with only an unknown role and a missing role gives `""` |
| `Launch.JoinPath` | kimi_k2_api_server.py:40 | joining a relative name onto a directory gives a path that starts with the directory and ends with the name |
| `Launch.LauncherResolution` | kimi_k2_api_server.py:42-49 | a non-empty override gives its shell tokens; otherwise the launcher is one word naming `mlx.launch`: the full path under the framework directory when that file is executable, the bare name otherwise; with an executable default it is exactly the tested path `DefaultLauncher`. This states the contract of `Launch.LauncherPrefix` |
| `Launch.CommandLayout` | kimi_k2_api_server.py:51-57 | the command is the launcher followed by `--hostfile`, the host file, the worker script, `--model`, the model id, `--prompt`, the prompt (at index launcher length + 6), `--max-tokens` and the decimal token budget, which reads back as the same integer. This states the contract of `Launch.WorkerArgs` and of the `argv` of `Launch.BuildLaunchSpec` |
| `Launch.ChildEnvironment` | kimi_k2_api_server.py:90-91 | `PATH` becomes the framework directory, `:`, and the old `PATH` (empty when unset); every other variable is inherited unchanged |
| `Launch.EnvironmentIndependentOfLauncher` | kimi_k2_api_server.py:88-93 | the child's environment and working directory do not depend on the override, the tokenizer or the file test, so all three launcher branches get the same `PATH` |
| `Handler.FailureMessage` | kimi_k2_api_server.py:98 | the error text of a failed run is the stripped stderr, or `"Kimi K2 process failed"` when that is empty; it is never empty |
| `Handler.StripFooter` | kimi_k2_api_server.py:106-112 | output without the separator passes through unchanged; with it, the content has no surrounding whitespace and no separator |
| `Handler.StripFooterKeepsHead` | kimi_k2_api_server.py:110-112 | when the separator first occurs at index i, the content is the stripped text before index i |
| `Handler.StripFooterIdempotent` | kimi_k2_api_server.py:110-112 | footer stripping applied to its own result changes nothing |
| `Handler.StripFooterAfterText` | kimi_k2_api_server.py:110-112 | for output laid out as a trimmed text that holds no ten-`=` separator, a line break, the separator and any statistics, the content is exactly that text, shorter runs of `=` included |
| `Handler.StripFooterExample` | kimi_k2_api_server.py:110-112 | `"Hello world\n==========\nPrompt: 5 tokens\n"` gives `"Hello world"` |
| `Handler.Handle` | kimi_k2_api_server.py:14-148 | the status is always 200, 400 or 500; it is 400 exactly when the prompt exceeds 600000 characters; the reply is a completion exactly when the prompt is within the limit and the run exited with status 0 |
| `Handler.PromptSizeLimit` | kimi_k2_api_server.py:78-80 | an oversized prompt gives the same 400 reply whatever the run would produce, so no run result is consulted; a prompt of exactly 600000 characters is not refused |
| `Handler.TooLargeMessageReportsLength` | kimi_k2_api_server.py:80 | the 400 refusal (`Handler.TooLargeMessage`) starts with `Prompt too large: ` followed by the prompt length as decimal text that reads back as that length |
| `Handler.RunSeesPrompt` | kimi_k2_api_server.py:15-17 | the run receives the assembled prompt as one argument and the request's `max_tokens` (10000 when absent) as decimal text that reads back as the same integer |
| `Handler.FailedRunIsServerError` | kimi_k2_api_server.py:94-98 | a non-zero exit status always gives a 500 carrying the failure message, never a completion, and the error text is never empty |
| `Handler.RaisedIsServerError` | kimi_k2_api_server.py:147-148 | an exception while running gives a 500 carrying its message |
| `Handler.EmptyOutputIsEmptyCompletion` | kimi_k2_api_server.py:100-106 | exit status 0 with empty stdout is a completion whose content is empty, not an error |
| `Handler.CompletionShape` | kimi_k2_api_server.py:125-143 | every completion has one choice, index 0, role `"assistant"`, finish reason `"stop"`, content equal to the footer-stripped stdout, and all three usage counts 0; the object kind is `"chat.completion"`, the id `"chatcmpl-kimi-k2"`, `created` 1234567890 and the model `"kimi-k2-local"`. This states the contract of `Handler.Envelope` |
| `Handler.ChatCompletions` | kimi_k2_api_server.py:14-148 | the handler run step by step (the assembly loop, the size check, one run, the reply) gives exactly `Handle`'s reply |

Three behaviours of the handler that are easy to misread:

- `PATH` is prefixed with `MLX_VENV_BIN` (or its default) in all three
  launcher branches, whichever launcher is chosen; the directory of an
  `MLX_LAUNCH` override is never put on `PATH`.
- The footer separator is exactly ten `=` characters. A run of fewer than
  ten `=` is kept in the content; a longer run is cut where it starts.
- An `MLX_VENV_BIN` that is set but empty is used as given. Only an unset
  variable falls back to `/Users/Shared/.venvs/mlx/bin`.

## Left out

- HTTP plumbing is not modelled: Flask routing, JSON decoding of the body and
  `jsonify`. A request is given as its optional message list and optional
  `max_tokens`.
- The `int(...)` conversion of a non-integer `max_tokens` is not modelled;
  `max_tokens` is an integer.
- Message content is text; non-string content, which Python would format with
  `str()`, is not modelled.
- A request body is taken as already decoded into its optional message list
  and optional `max_tokens`. A falsy body (`null`, `[]`, `0`, `""`) is served
  as the empty request, which the model covers as `Request(None, None)`. A
  truthy body that is not a JSON object, `"messages": null`, and message
  entries that are not JSON objects are not modelled. In the source they
  raise outside the handler's `try` block (kimi_k2_api_server.py:15-22), so
  the framework's own error reply is sent instead.
- `subprocess.run` is not modelled. It is a blocking process call with no
  timeout, and here it is an arbitrary function from the launch specification
  to its result. The environment is consulted only through `Launch.Config`;
  how the launcher starts the worker on each node is not modelled.
- `shlex.split` is not modelled; it is a given tokenizer function.
- `os.getenv`, `os.path.isfile`, `os.access` and `deepcopy(os.environ)` are
  not modelled. They are configuration fields: optional values, a predicate on
  paths and a map.
- The debug, warning and error `print` calls are not modelled; the model
  assumes every print succeeds. The guarded ones
  (kimi_k2_api_server.py:61-75, 83-86, 115-122) swallow only
  `BlockingIOError`; any other exception from them, such as a
  `BrokenPipeError` or a `UnicodeEncodeError`, escapes. At lines 61-86 that
  happens before the `try` block, so the framework sends its own error reply,
  even for a prompt that would have been refused with a 400; at lines
  115-122 it reaches line 147's 500. The unguarded prints inside the `try`
  block (kimi_k2_api_server.py:95-97, 102-103, 145) lead to that same 500 if
  they raise, even after a successful run. `Handle` never gives these
  replies.
- Exceptions raised while building the command or the environment are not
  modelled. Only an exception from running the process is (`Raised`), with the
  same 500 reply.
- The worker program (`kimi_k2_distributed.py`) is not modelled: argument
  parsing, distributed initialisation, model loading, the synchronisation
  barrier, generation and rank-0 printing. It is external numerical code
  reached only through its command line and its stdout.
- Concurrency between requests is not modelled; each request is handled on
  its own.
