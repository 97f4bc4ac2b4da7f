# Activity monitor: response composition and error reporting

A Dafny model of the part of the activity-monitor web dashboard (a Go program)
that composes HTTP responses and reports errors, plus the table of monitor
event names.

- `Templates` models `template.go`. `TemplateWriter` is a copy-on-write builder
  that holds a template, a server-error fallback, a status code, at most one
  `HTTPError` and the template arguments. Its four setters return modified
  copies. Dafny datatypes are values, so the receiver is never changed.
  `Execute` writes either the error's page or the writer's own template, never
  both. The two `WriteToPage` methods of `errors.go` sit here too: they build a
  `TemplateWriter` and call `Execute`, and `Execute` calls them back. The
  writer they build carries no error, which is the termination measure of that
  mutual recursion.
- The HTTP response writer is a `ResponseWriter` object that records an event
  trace: the content type, the status line, each template run with its
  arguments, and each call of the server-error fallback. A template is known by
  its name. Whether running it succeeds is given by a `TemplateEngine`
  function passed to `Execute`. The fallback is an opaque name. The two
  error-page templates and the default writer are constants, as the Go program
  builds them at start-up (`handlers.go:37-42`).
- Go panics are modelled as values. `Execute` returns
  `Outcome.Panicked` when it calls a method through a nil template or a nil
  fallback. `MustTemplate` returns `Result.Failure` with the panic message.
- `Errors` models `errors.go`: the closed taxonomy
  `StatusError(status, message) | DatabaseError(dbError)` with `HTTPStatus`,
  `Error` and `NewDatabaseError`. `Decimal` renders an `int` the way Go's
  `%v` does, for `StatusError.Error`.
- `Transactions` models `TransactionErrorHandler`, the first-error-wins
  accumulator used by the handlers in `handlers.go`. Its Go definition is in a
  file this model does not cover. The model is reconstructed from its test
  (`database_test.go:54-76`) and its call sites (`handlers.go:147-167`,
  `handlers.go:193-210`).
- `Monitor` models `monitor.go`: `EventType` is an unsigned 8-bit number that
  indexes a 5 × 3 table of names. Numbers past the table read
  "Unkown Event" (the source's spelling). `CSSColor` picks a colour.

A database error prints as `DatabaseError: <cause>`, and a status error prints
as `<status> -- <message>`.

## Model

| member | source | states |
|---|---|---|
| `Templates.FixTemplateNames` | template.go:16-20 | rewrites the array in place; afterwards element i is "templates/" followed by its old value, for every i |
| `Templates.MustTemplate` | template.go:42-48 | succeeds exactly when there is no error, returning the given template unchanged; otherwise fails with "Error creating template: '<err>'" |
| `Templates.TemplateWriter.SetTemplate` | template.go:73-76 | the copy has the new template, and the fallback, status, error and arguments of the receiver |
| `Templates.TemplateWriter.SetError` | template.go:79-86 | nil gives back the receiver field for field; an error is stored with its own HTTPStatus as status code; template, fallback and arguments are kept |
| `Templates.TemplateWriter.SetStatusCode` | template.go:89-93 | the copy has the new status code and every other field of the receiver |
| `Templates.TemplateWriter.SetTmplArgs` | template.go:96-100 | the copy has the new arguments and every other field of the receiver |
| `Templates.DefaultWriter` | handlers.go:38 | the writer handlers and error pages start from has only the fallback `handleServerError` set: no template, status 0, no error, nil arguments |
| `Templates.ErrorWriter` | errors.go:36-41 | the writer an error page is rendered with has no error, the error's page template, the error's HTTPStatus, the default fallback and the error as argument |
| `Templates.Execute` | template.go:104-121 | appends to the response exactly the events of `Render` and returns its outcome: the error's page if an error is set, otherwise content type, non-zero status, the template run and, on failure, the fallback |
| `Templates.WriteToPage` | errors.go:36-41 | appends exactly the events of `ErrorPage` (the error-free writer of `ErrorWriter` executed) and returns its outcome; the `DatabaseError` case of errors.go:74-78 is the same method's second branch |
| `Templates.TemplatePath` | template.go:109-120 | with no error: first the HTML content type; status written iff non-zero and then with the writer's code; a template is run only if the writer has one, and then only the writer's own with its own arguments; the fallback is called exactly when Execute returns false (never on a panic), and then last, as the writer's own handler with the template's error; returns true iff the template succeeded; panics only for a nil template or a nil fallback that is needed |
| `Templates.ErrorWins` | template.go:105-107 | once an error is set, Execute's output equals the error's page and does not depend on the writer's template, arguments, status or fallback |
| `Templates.ErrorPageWrites` | errors.go:36-78 | for both variants, the StatusError page (lines 36-41) and the DatabaseError page (lines 74-78): an error page never panics, writes the HTML content type, writes exactly the error's HTTPStatus when non-zero, runs only the variant's page template with the error as argument, and reports whether that template succeeded |
| `Templates.ExecuteWritesOnce` | template.go:104-121 | every Execute writes one write sequence: content type first, then at most one status, at most one template run and at most one fallback call, in that order, with exactly one template run when it returns |
| `Templates.SetErrorStatusReachesWriter` | template.go:79-86 | a writer given an error renders the error's page, writes the status SetError stored, and ignores any status set afterwards |
| `Errors.HTTPError.HTTPStatus` | errors.go:31-66 | a StatusError reports its own status unchanged (lines 31-33); a DatabaseError reports 500 whatever its cause (lines 64-66) |
| `Errors.NewDatabaseError` | errors.go:55-61 | nil maps to nil; a non-nil error maps to a DatabaseError wrapping it, with status 500 and text "DatabaseError: " followed by the cause's text |
| `Errors.HTTPError.Error` | errors.go:25-71 | a StatusError prints as its status in decimal, " -- ", then its message (lines 25-27); a DatabaseError prints as "DatabaseError: " then its cause's text (lines 69-71) |
| `Errors.StatusErrorText` | errors.go:25-27 | a StatusError's text is its status in decimal, which reads back to the status, followed by " -- " and the message |
| `Errors.ErrorTextInjective` | errors.go:25-71 | two errors with the same text are the same error, across both variants |
| `Errors.ErrorTextExamples` | errors.go:25-71 | StatusError{123, "foo bar"} prints "123 -- foo bar" (lines 25-27, as handlers_test.go:36-42 pins), StatusError 404 reports 404 (lines 31-33), and a database error with cause "foo" prints "DatabaseError: foo" (lines 69-71) |
| `Decimal.IntToDecimal` | errors.go:26 | Go's `%v` of an int: a leading '-' exactly for negative values, then digits with no leading zero (a lone "0" for zero) |
| `Decimal.NatToDecimalValue` | errors.go:26 | the digits printed for a natural number read back to that number |
| `Decimal.IntToDecimalRoundTrip` | errors.go:26 | the decimal printed for any integer, sign included, reads back to that integer |
| `Decimal.IntToDecimalInjective` | errors.go:26 | different integers print differently |
| `Transactions.Absorb` | database_test.go:64-75 | a nil result changes nothing; a held error is never replaced; the first error is wrapped as a DatabaseError |
| `Transactions.FirstFailure` | handlers.go:147-167 | the first error among the results of a transaction's steps (every earlier result is nil), or nil when every step succeeded |
| `Transactions.FirstErrorWins` | handlers.go:147-167 | after any sequence of results, the accumulator holds the error it already held, or else the first error of the sequence wrapped as a DatabaseError |
| `Transactions.FirstErrorExample` | database_test.go:54-76 | nil, then "foo", then "bar" leaves "DatabaseError: foo" |
| `Transactions.TransactionErrorHandler.Err` | database_test.go:64-75 | records one result as `Absorb` does and returns the handler for chaining |
| `Monitor.EventType.GetSafe` | monitor.go:12-18 | the unknown-event text is returned exactly for numbers past MontiorMax; the table is read only inside its bounds |
| `Monitor.EventType.String` | monitor.go:22-24 | column 0 of the event's row for events up to MontiorMax, "Unkown Event" past it |
| `Monitor.EventType.FullName` | monitor.go:28-30 | column 1 of the event's row for events up to MontiorMax, "Unkown Event" past it |
| `Monitor.EventType.ShortName` | monitor.go:34-36 | column 2 of the event's row for events up to MontiorMax, "Unkown Event" past it |
| `Monitor.EventType.CSSColor` | monitor.go:38-49 | "red" exactly for Down, "green" exactly for Up, "#FFC107" for every other number |
| `Monitor.TableShape` | monitor.go:51-98 | the table has a row for each event up to MontiorMax (= Up = 4) and three entries in every row |
| `Monitor.KnownEvent` | monitor.go:12-36 | String, FullName and ShortName are known exactly for events up to MontiorMax, and then are columns 0, 1 and 2 of the event's row |
| `Monitor.EventNameExamples` | monitor.go:51-98 | String(Paused) is "Monitor Paused Event", FullName(Down) is "Server is down", ShortName(Up) is "Up", and event 5 is "Unkown Event" |

## Left out

- `NewTemplate` and `NewBareboneTemplate` (template.go:28-38) parse template files from disk; templates are opaque names here.
- The HTML the templates produce, including the text of the error pages, comes from template files that are not part of this model.
- What a template writes before it fails is not modelled: a template run is one event, and its success or failure comes from the `TemplateEngine` function.
- `handleServerError` (handlers.go:86-94) is the fallback's body: logging, a 500 status, the 500 page and a hard-coded byte string if that fails. The model records only that the fallback was called, with which error.
- The handlers in handlers.go, `MainMiddleware` and `Redirect`: database queries, form parsing, redirects and CSV/JSON export are I/O.
- database.go and main.go: configuration files, the database connection and the HTTP server.
- `Monitor`, `MonitorLog`, `SupportedTypes` and `makeMonitors` (monitor.go:103-134) are plain records and fixture data; `MonitorLog.Date` depends on the clock.
- net/http's own checks on the status line (a repeated WriteHeader is ignored, an invalid code panics) are outside the model: the trace records what Execute asks of the writer.
- Calling Execute twice on the same writer is not guarded in the source; the model lets each call append its own events.
- A Go interface holding a nil `*DatabaseError` counts as non-nil; the model's `Option` has no such value. `NewDatabaseError` never builds one.
- Go compares `*DatabaseError` values by pointer identity; the model compares error values by their contents.
- `TransactionErrorHandler.FirstErr` and the constructor are plain reads and set-up and have no row of their own; the type is reconstructed from its test and call sites, since its Go definition is in a file this model does not cover.
