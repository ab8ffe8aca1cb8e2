# Correlation core of syslog-ng-rust-modules, in Dafny

This project models the correlation core of the syslog-ng Rust modules and
proves properties of the model. It also models the small parsers, builders
and state machines around that core.

- **Correlation contexts** (`context_state.dfy`, `linear_context.dfy`,
  `contexts.dfy`). A context wraps read-only conditions (the accepted
  pattern ids, a timeout, an optional size cap, an optional renew timeout)
  and a mutable aggregation state. Timer ticks and message arrivals update
  that state, and `is_open` reports it. The `Context` enum dispatches to a
  linear or a map variant.
- **Request reactor** (`reactor.dfy`, `dispatcher.dfy`). This is a table
  from request handle to handler, plus a loop that drains the demultiplexer
  and hands each request to the handler registered for its handle.
- **Exit handler** (`exit_handler.dfy`). It answers an exit request with
  one exit response.
- **Message action** (`message_action.dfy`). When a context closes, it
  renders a correlated message from templates and sends it.
- **Message builder** (`messages.dfy`).
- **Parser base and greedy parser** (`parsers.dfy`).
- **Parser plugin proxy** (`parser_proxy.dfy`) and its **option error**
  (`parser_error.dfy`).

How things are modelled:
- Objects whose methods take `&mut self` are classes. Their methods state
  the whole new state.
- Read-only parts are `const` fields. This covers a context's base, which
  the source passes by shared reference.
- The aggregation state is a value (`ContextState.State`). Pure transition
  functions specify it, and the class methods reassign it.
- Messages are immutable values. Sharing them through `Rc`/`Arc` is not
  modelled.

The closing rules of a context follow the unit tests of
`src/context/mod.rs`, because the state and condition sources are not part
of this model. These rules are pinned by those tests:
- The context opens on its first accepted message, that is, a message whose
  uuid is one of the patterns.
- `timeout` closes it once the ticks since opening reach the limit.
- `max_size` closes it on the N-th accepted message.
- `renew_timeout` closes it once the ticks since the last accepted message
  reach the limit. Every accepted message resets that gap.

These rules are modelling assumptions that no test exercises:
- A closed context ignores further messages and ticks, so it never reopens.
  No test sends anything after a context has closed.
- A message whose uuid is not one of the patterns leaves the state alone.
  Every test message carries the only pattern.
- The limits are OR-combined and evaluated after every stimulus. No test
  brings two limits near firing at once.
- Ticks only count while the context is open. Every test in `src/context/mod.rs` accepts a message
  before its first tick, so counting from creation would pass them too.

Two further choices follow the code:
- A message's values are a `BTreeMap`, so they are ordered by key, not by
  insertion.
- `on_message` returns no "accepted" flag.

## Model

| member | source | states |
|---|---|---|
| `ContextState.OnMessage` | src/context/mod.rs:174-175 | A closed context, or a message outside the patterns, leaves the state alone. Otherwise the message is appended, the renew gap resets to 0, and the context is open exactly when no limit is due. |
| `ContextState.OnTimer` | src/context/mod.rs:176-181 | A context that is not open ignores the tick. An open context advances both counters by the delta and stays open exactly when no limit is due. |
| `ContextState.OnEvent` | src/context/linear.rs:25-32 | A closed context and an exit request leave the state unchanged. Only a message request can add to the message log, and then only the message it carries. |
| `ContextState.Run` | src/context/linear.rs:25-32 | Over a sequence of requests the message log only grows at its end, by at most one message per request. |
| `ContextState.NewState` | src/context/linear.rs:21 | A fresh state holds no messages and is neither open nor closed. |
| `ContextState.OnEventPreservesWf` | src/context/linear.rs:25-32 | Every request keeps the state well formed: an open context holds a message and has no limit due. A closed context is unchanged by any request. |
| `ContextState.ClosedIsFinal` | src/context/linear.rs:25-32 | Once closed, a context stays unchanged under any further requests, and no further closing happens. This rests on the assumption that a closed context ignores every stimulus. |
| `ContextState.AtMostOneClosing` | src/context/mod.rs:30-42 | Along any run a context closes at most once, and not at all if it is already closed. It ends closed exactly when it was closed before or one closing happened. |
| `ContextState.OpenIffAcceptedAndNotClosed` | src/context/linear.rs:43-45 | From a fresh context, `is_open` holds exactly when some message was accepted and no closing has fired. |
| `ContextState.TimerChunking` | src/context/mod.rs:176-181 | For an open context, a run of ticks leaves it open exactly when one tick of the summed delta would. Closing depends on the sum, not on the chunking. |
| `ContextState.TimeoutIsSumBased` | src/context/mod.rs:166-182 | With only a timeout configured, an open context stays open exactly while its elapsed ticks plus the summed deltas stay below the timeout. |
| `ContextState.RenewRestartsAfterMessage` | src/context/mod.rs:221-239 | After an accepted message, ticks keep the context open exactly while their sum stays below the renew timeout. Any earlier gap does not matter. |
| `ContextState.MaxSizeClosesOnNth` | src/context/mod.rs:185-200 | With size cap N, k <= N arrivals of a matching message leave k messages, and the context is open exactly for 0 < k < N. It closes on the N-th. |
| `ContextState.TimeoutScenario` | src/context/mod.rs:166-182 | Timeout 100: not open when fresh; open after the message and after ticks 50 and 49; closed after one more tick. |
| `ContextState.MaxSizeScenario` | src/context/mod.rs:185-200 | Size cap 3: open after the first and second messages, closed after the third. |
| `ContextState.RenewTimeoutScenario` | src/context/mod.rs:203-218 | Renew timeout 10: open after ticks 8 and 1, closed after one more tick. |
| `ContextState.RenewingMessageScenario` | src/context/mod.rs:221-239 | Renew timeout 10: a message after 9 ticks resets the gap, so the next tick leaves the context open. |
| `LinearContexts.LinearContext.constructor` | src/context/linear.rs:18-23 | The base is built from the uuid and conditions; the state is fresh, so the context is not open. |
| `LinearContexts.LinearContext.FromBase` | src/context/linear.rs:57-63 | Keeps the given base and starts with a fresh, not-open state. |
| `LinearContexts.LinearContext.OnEvent` | src/context/linear.rs:25-32 | A timer request goes to the timer transition and a message request to the message transition. Any other request leaves the state unchanged. |
| `LinearContexts.LinearContext.OnTimer` | src/context/linear.rs:34-36 | Only the state changes, by the timer transition under the read-only base's conditions. |
| `LinearContexts.LinearContext.OnMessage` | src/context/linear.rs:38-40 | Only the state changes, by the message transition under the read-only base's conditions. |
| `LinearContexts.LinearContext.IsOpen` | src/context/linear.rs:43-45 | Reports the state's open flag. |
| `LinearContexts.LinearContext.Patterns` | src/context/linear.rs:47-49 | Returns the conditions' patterns. |
| `LinearContexts.LinearContext.Uuid` | src/context/linear.rs:52-54 | Returns the base's uuid. |
| `LinearContexts.LinearContext.Handlers` | src/context/mod.rs:139-142 | As an event handler, the context subscribes to exactly its conditions' patterns. |
| `Contexts.MapContext.constructor` | src/context/mod.rs:57-61 | The map variant starts from its base with a fresh state. |
| `Contexts.MapContext.OnTimer` | src/context/mod.rs:33 | Same timer transition as the linear variant. |
| `Contexts.MapContext.OnMessage` | src/context/mod.rs:40 | Same message transition as the linear variant. |
| `Contexts.MapContext.IsOpen` | src/context/mod.rs:47 | Reports the state's open flag. |
| `Contexts.Context.OnTimer` | src/context/mod.rs:30-35 | Delegates to the wrapped variant. Only that variant's state changes, by the timer transition. |
| `Contexts.Context.OnMessage` | src/context/mod.rs:37-42 | Delegates to the wrapped variant. Only that variant's state changes, by the message transition. |
| `Contexts.Context.IsOpen` | src/context/mod.rs:44-49 | Reports the wrapped variant's open flag. |
| `Contexts.Context.NewLinear` | src/context/mod.rs:51-55 | Always the linear variant, over a new object, with the given uuid and conditions and a fresh state. |
| `Contexts.Context.NewMap` | src/context/mod.rs:57-61 | Always the map variant, over a new object, with the given uuid and conditions and a fresh state. |
| `Contexts.Context.FromConfig` | src/context/mod.rs:64-68 | A configuration always yields the linear variant, with that base and a fresh state. |
| `Dispatcher.Handle` | src/dispatcher/reactor.rs:32 | The exit handle is carried by exit requests and only by them; the timer handle by timer requests and only by them. |
| `Reactor.RequestReactor.constructor` | src/dispatcher/reactor.rs:17-24 | A new reactor has no handlers and keeps the given demultiplexer, context map and responder. |
| `Reactor.RequestReactor.HandleEvents` | src/dispatcher/reactor.rs:29-38 | Drains the demultiplexer completely. The context map becomes the result of dispatching the queued requests front first, and the handler table is unchanged. |
| `Reactor.RequestReactor.RegisterHandler` | src/dispatcher/reactor.rs:39-41 | Stores the handler under its own handle and replaces any handler registered there before. |
| `Reactor.RequestReactor.RemoveHandlerByHandle` | src/dispatcher/reactor.rs:42-44 | Removes only that handle's entry; every other registration stays. |
| `Reactor.DrainInOrder` | src/dispatcher/reactor.rs:30-33 | Requests are handled in queue order. The last request reaches exactly the handler under its own handle, or is dropped when there is none. |
| `Reactor.DrainUnhandled` | src/dispatcher/reactor.rs:34-36 | Requests with no registered handler are dropped, and the context map is unchanged. |
| `Reactor.DrainUsesOnlyOwnHandles` | src/dispatcher/reactor.rs:32-33 | No other handler takes part: removing the handlers of handles that no queued request carries changes nothing. |
| `ExitHandler.ExitEventHandler.Handle` | correlation/src/dispatcher/handlers/exit.rs:27-29 | Always the exit handle, which is exactly the handle exit requests carry. |
| `ExitHandler.ExitEventHandler.HandleEvent` | correlation/src/dispatcher/handlers/exit.rs:20-26 | Requires an exit request, since anything else is a contract violation. Appends exactly one exit response to the responder and modifies nothing else. |
| `MessageActions.MessageAction.constructor` | src/action/message/mod.rs:42-56 | Registers one template per configured value, then the text under `MESSAGE`. Keeps the configured uuid, name and sender. |
| `MessageActions.MessageAction.RenderValues` | src/action/message/mod.rs:67-74 | Succeeds exactly when every registered template renders, with one entry per template key holding its rendering. Otherwise it fails with the error of a failing key. |
| `MessageActions.MessageAction.RenderMessage` | src/action/message/mod.rs:76-91 | On success the message has the action's uuid and name. Its text is the rendered `MESSAGE`, which is absent from its values; every other template's rendering is a value. It fails exactly when some template fails. |
| `MessageActions.MessageAction.Execute` | src/action/message/mod.rs:106-119 | Sends exactly one message response, holding the rendered message, when rendering succeeds. Sends nothing when it fails. |
| `Messages.MessageBuilder.constructor` | src/message/builder.rs:13-20 | Sets the uuid and text, with no name and an empty value map. |
| `Messages.MessageBuilder.Name` | src/message/builder.rs:22-25 | Overwrites the name with the given option, `None` included. The other fields are unchanged. |
| `Messages.MessageBuilder.Values` | src/message/builder.rs:27-30 | Replaces the whole value map. The other fields are unchanged. |
| `Messages.MessageBuilder.Pair` | src/message/builder.rs:32-35 | Sets only the given key to the given value; every other key keeps its value. |
| `Messages.MessageBuilder.Build` | src/message/builder.rs:37-44 | The message's four fields equal the builder's. The builder is only read, so repeated builds are equal. |
| `Parsers.ParserBase.WithName` | src/parsers/base.rs:9-11 | The name is `Some(name)`. |
| `Parsers.ParserBase.constructor` | src/parsers/base.rs:13-17 | The name is `None`. |
| `Parsers.ParserBase.Name` | src/parsers/base.rs:19-21 | Returns exactly the stored name. |
| `Parsers.ParserBase.SetName` | src/parsers/base.rs:23-25 | Overwrites any earlier name with `Some(name)`. |
| `Parsers.FindFrom` | src/parsers/greedy.rs:42 | From a start position on, returns the first position where the end string occurs, or `None` when it occurs nowhere after it. |
| `Parsers.Find` | src/parsers/greedy.rs:42 | Returns the first occurrence of the end string in the input, and `None` exactly when it never occurs. |
| `Parsers.GreedyParser.constructor` | src/parsers/greedy.rs:11-14 | A new base named `name`, and no end string. |
| `Parsers.GreedyParser.FromStr` | src/parsers/greedy.rs:16-20 | A new base named `name`, and the given end string. |
| `Parsers.GreedyParser.SetEndString` | src/parsers/greedy.rs:22-24 | The end string becomes `Some(end)`. |
| `Parsers.GreedyParser.Parse` | src/parsers/greedy.rs:37-47 | Without an end string, the whole input matches. With one, a match exists exactly when the end string occurs; the match is a prefix of the input, directly followed by the end string, which occurs nowhere earlier. |
| `Parsers.GreedyParser.Name` | src/parsers/greedy.rs:49-51 | Returns the base's name. |
| `Parsers.GreedyParserExamples` | src/parsers/greedy.rs:62-75 | With end string "foo", "qux foo bar" yields "qux " from the parser named "name", and "qux baz bar" yields no match. |
| `ParserErrors.Description` | syslog-ng-rs/syslog-ng-common/src/proxies/parser/error.rs:12-28 | The description is a prefix of the display text, and equal to it exactly for a verbatim error. The other three variants have fixed descriptions: their display prefix without the trailing separator and option, as at error.rs:13, 18 and 22. |
| `ParserErrors.Display` | syslog-ng-rs/syslog-ng-common/src/proxies/parser/error.rs:12-28 | A missing or unknown option's name is exactly what follows its variant's prefix. An invalid value's text starts with the option name and ends with the expected value; its full text is stated by `ParserErrors.InvalidValueError`. A verbatim error displays its message. |
| `ParserErrors.MissingRequiredOptionError` | syslog-ng-rs/syslog-ng-common/src/proxies/parser/error.rs:33-35 | Yields `MissingRequiredOption(o)`, displayed as "A required option is missing: " followed by `o`. |
| `ParserErrors.InvalidValueError` | syslog-ng-rs/syslog-ng-common/src/proxies/parser/error.rs:36-38 | Yields `InvalidValue` with the three arguments in its fields, in the order given, displayed as "Invalid value in option. option_name=", the option, " value=", the value, " expected_value=" and the expected value, the format of error.rs:19. |
| `ParserErrors.VerbatimError` | syslog-ng-rs/syslog-ng-common/src/proxies/parser/error.rs:39-41 | Yields `Verbatim(m)`, whose display and description are exactly `m`. |
| `ParserErrors.UnknownOptionError` | syslog-ng-rs/syslog-ng-common/src/proxies/parser/error.rs:42-44 | Yields `UnknownOption(n)`, displayed as "Unknown configuration option: option_name=" followed by `n`. |
| `ParserErrors.DisplayIdentifiesOptionErrors` | syslog-ng-rs/syslog-ng-common/src/proxies/parser/error.rs:12-23 | The display of a missing-option or unknown-option error determines both the variant and the option. |
| `ParserErrors.InvalidValueDisplayIsAmbiguous` | syslog-ng-rs/syslog-ng-common/src/proxies/parser/error.rs:17-19 | Two different invalid-value errors can have the same display, so that text does not identify its error. |
| `ParserProxy.RustParserProxy.constructor` | syslog-ng-common/src/proxies/parser/proxy.rs:18-23 | No parser yet, and a fresh builder. |
| `ParserProxy.RustParserProxy.Init` | syslog-ng-common/src/proxies/parser/proxy.rs:25-37 | Requires a builder and always consumes it. If the build succeeds, the parser is stored and the result is true. Otherwise the result is false and the parser is unchanged. |
| `ParserProxy.RustParserProxy.SetOption` | syslog-ng-common/src/proxies/parser/proxy.rs:39-46 | Creates a fresh builder if none exists, then forwards the option, so a builder exists afterwards. The parser is unchanged. |
| `ParserProxy.RustParserProxy.Process` | syslog-ng-common/src/proxies/parser/proxy.rs:48-50 | Requires a built parser and returns that parser's verdict on the input. |
| `ParserProxy.RustParserProxy.Parent` | syslog-ng-common/src/proxies/parser/proxy.rs:52-55 | Requires a builder and gives it the parent; nothing else changes. |

## Left out

- MessageActions.MessageAction.RenderValues: it does not say which failing key's error is reported, because the source visits the templates of a hash map in an unspecified order.
- The source of `State`, `BaseContext`, `Conditions` and `MapContext` is not part of this model. Only the closing behaviour that the context tests pin down is modelled. The map variant has no keyed sub-grouping, and a context's actions are not modelled.
- The `Option<Vec<ExecResult>>` returned by `on_timer` and `on_message` in src/context/mod.rs is not modelled. `ContextState.Closings` counts the closings at which the actions would fire.
- `Context::new_linear` and `Context::new_map` take no uuid: the one `BaseContext::new` picks is a parameter of `Contexts.Context.NewLinear` and `Contexts.Context.NewMap`.
- `From<Context> for Box<EventHandler<Event>>` and `From<LinearContext> for Box<...>` are not modelled. They are type erasure into a trait object, with no behaviour of their own.
- The `ContextMap` is an abstract type parameter of the reactor, and the demultiplexer is a finite queue. A blocking `select` that waits for producers is not modelled.
- Reactor handlers are modelled as pure effects on the context map, so any state a handler object keeps between calls is not modelled.
- Of the exit handler's shared data, only the responder is modelled.
- Handlebars is abstracted as a fallible `render(key)`. Template parsing, the renderer context (`context.uuid`, `context.name`, `context.len`, `messages`), `render_value` and its `String::from_utf8` check are folded into it.
- `MessageResponse::message` is a plain accessor and is not modelled.
- Sharing through `Rc`, `Arc` and `RefCell` is not modelled; messages are immutable values.
- Logging (`trace!`, `debug!`, `error!`) and `Debug` printing are not modelled.
- `MessageBuilder`'s setters return `&mut Self` for chaining; the model's setters return nothing.
- `GreedyParser::hash_os` is not modelled, because its value is the output of a library hash. `boxed_clone` is not modelled either: it only clones into a box.
- `str::find` works on byte offsets of UTF-8 text; the model works on characters.
- `RustParserProxy::process` is modelled as the parser's verdict on the input. Its changes to the host's `LogMessage` and to the parser's own state are not modelled.
- The plugin's builder is abstracted to the options and parent it has received. Its `build` is a parameter.
- `src/lib.rs`, `src/bin/parse.rs`, `tests/parser.rs` and `_test_module/__init__.py` are not part of this model. They cover plugin registration, file I/O, and the embedded Python interpreter.
