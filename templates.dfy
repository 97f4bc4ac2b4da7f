/** The response composer: TemplateWriter, a copy-on-write builder that collects a
    template, its arguments, a status code and at most one HTTPError, and writes
    exactly one response when executed.

    The response writer is a ResponseWriter object that records, in order, what
    reaches it: the content type header, the status line, the execution of a
    template with its arguments, and the call of the server-error fallback. A
    template is known only by its name; whether executing it succeeds is given by
    a TemplateEngine function. WriteToPage of both HTTPError variants is here
    rather than in module Errors, because it builds a TemplateWriter and is
    mutually recursive with Execute. */
module Templates {
  import opened Wrappers
  import opened Errors

  const TemplateDir := "templates/"
  const HtmlContent := "text/html; charset=utf-8"
  const TemplateErrorPrefix := "Error creating template: '"

  /** The message of the run-time panic Go raises when a method is called
      through a nil interface or a nil func value. */
  const NilDereference := "runtime error: invalid memory address or nil pointer dereference"

  /** A parsed template, known by its name. */
  datatype Template = Template(name: string)

  /** The two error-page templates, parsed once at start-up. */
  const ErrorTmpl := Template("error.html")
  const Error500Tmpl := Template("error500.html")

  /** A server-error fallback function, known by its name. */
  datatype ErrorHandler = ErrorHandler(name: string)

  /** The fallback the application installs: it logs the failure and writes a
      minimal 500 page. */
  const HandleServerError := ErrorHandler("handleServerError")

  /** A template argument: nil, a value of the page's own data type A, or an
      HTTPError that an error page shows. */
  datatype Args<A> = NoArgs | Data(value: A) | ErrorArgs(err: HTTPError)

  /** The outcome of executing a template: nil on success, an error otherwise. */
  type TemplateEngine<!A> = (Template, Args<A>) -> Option<RawError>

  /** What reaches the response writer, in order. */
  datatype Event<A> =
    | SetContentType(contentType: string)
    | WriteStatus(code: int)
    | RunTemplate(template: Template, args: Args<A>)
    | ServerError(handler: ErrorHandler, cause: RawError)

  /** How Execute ends: it returns whether the template succeeded, or it panics. */
  datatype Outcome = Returned(ok: bool) | Panicked(reason: string)

  /** Prefixes every template name with the template directory, in place. */
  method FixTemplateNames(templates: array<string>)
    modifies templates
    ensures forall i :: 0 <= i < templates.Length ==> templates[i] == TemplateDir + old(templates[i])
  {
    for i := 0 to templates.Length
      invariant forall k :: 0 <= k < i ==> templates[k] == TemplateDir + old(templates[k])
      invariant forall k :: i <= k < templates.Length ==> templates[k] == old(templates[k])
    {
      templates[i] := TemplateDir + templates[i];
    }
  }

  /** Returns the template when loading it succeeded, and panics otherwise. */
  function MustTemplate(t: Option<Template>, err: Option<RawError>): (r: Result<Option<Template>>)
    ensures r.Success? <==> err.None?
    ensures r.Success? ==> r.value == t
    ensures r.Failure? ==> r.message == TemplateErrorPrefix + err.value.message + "'"
  {
    match err
    case None => Success(t)
    case Some(e) => Failure(TemplateErrorPrefix + e.message + "'")
  }

  datatype TemplateWriter<A> = TemplateWriter(
    template: Option<Template>,
    serverErrorHandler: Option<ErrorHandler>,
    statusCode: int,
    err: Option<HTTPError>,
    tmplArgs: Args<A>)
  {
    /** A copy with the given template; every other field is kept. */
    function SetTemplate(tmpl: Option<Template>): (r: TemplateWriter<A>)
      ensures r.template == tmpl
      ensures r.serverErrorHandler == serverErrorHandler && r.statusCode == statusCode
      ensures r.err == err && r.tmplArgs == tmplArgs
    {
      this.(template := tmpl)
    }

    /** A copy carrying the error and its status; nil changes nothing. */
    function SetError(e: Option<HTTPError>): (r: TemplateWriter<A>)
      ensures e.None? ==> r == this
      ensures e.Some? ==> r.err == e && r.statusCode == e.value.HTTPStatus()
      ensures r.template == template && r.serverErrorHandler == serverErrorHandler
      ensures r.tmplArgs == tmplArgs
    {
      match e
      case None => this
      case Some(x) => this.(err := e, statusCode := x.HTTPStatus())
    }

    /** A copy with the given status code; every other field is kept. */
    function SetStatusCode(code: int): (r: TemplateWriter<A>)
      ensures r.statusCode == code
      ensures r.template == template && r.serverErrorHandler == serverErrorHandler
      ensures r.err == err && r.tmplArgs == tmplArgs
    {
      this.(statusCode := code)
    }

    /** A copy with the given template arguments; every other field is kept. */
    function SetTmplArgs(args: Args<A>): (r: TemplateWriter<A>)
      ensures r.tmplArgs == args
      ensures r.template == template && r.serverErrorHandler == serverErrorHandler
      ensures r.statusCode == statusCode && r.err == err
    {
      this.(tmplArgs := args)
    }
  }

  /** The writer every handler starts from: only the fallback is set. */
  function DefaultWriter<A>(): (w: TemplateWriter<A>)
    ensures w.err.None? && w.template.None? && w.statusCode == 0 && w.tmplArgs.NoArgs?
    ensures w.serverErrorHandler == Some(HandleServerError)
  {
    TemplateWriter(None, Some(HandleServerError), 0, None, NoArgs)
  }

  /** The template each error variant renders with. */
  function PageTemplate(e: HTTPError): Template {
    match e
    case StatusError(_, _) => ErrorTmpl
    case DatabaseError(_) => Error500Tmpl
  }

  /** The writer WriteToPage builds: the default writer with the error page, the
      error's status and the error as argument, and no error of its own. */
  function ErrorWriter<A>(e: HTTPError): (w: TemplateWriter<A>)
    ensures w.err.None?
    ensures w.template == Some(PageTemplate(e)) && w.serverErrorHandler == Some(HandleServerError)
    ensures w.statusCode == e.HTTPStatus() && w.tmplArgs == ErrorArgs(e)
  {
    match e
    case StatusError(s, _) =>
      DefaultWriter().SetTemplate(Some(ErrorTmpl)).SetStatusCode(s).SetTmplArgs(ErrorArgs(e))
    case DatabaseError(_) =>
      DefaultWriter().SetTemplate(Some(Error500Tmpl)).SetStatusCode(500).SetTmplArgs(ErrorArgs(e))
  }

  /** Everything one Execute writes, and how it ends. */
  datatype Rendering<A> = Rendering(events: seq<Event<A>>, outcome: Outcome)

  /** The specification of Execute: the error page when an error is set, and
      otherwise the writer's own template. */
  function Render<A>(w: TemplateWriter<A>, run: TemplateEngine<A>): Rendering<A>
    decreases if w.err.Some? then 2 else 0
  {
    match w.err
    case Some(e) => ErrorPage(e, run)
    case None =>
      var head: seq<Event<A>> := [SetContentType(HtmlContent)] + StatusLine(w.statusCode);
      match w.template
      case None => Rendering(head, Panicked(NilDereference))
      case Some(t) =>
        var body := head + [RunTemplate(t, w.tmplArgs)];
        match run(t, w.tmplArgs)
        case None => Rendering(body, Returned(true))
        case Some(cause) =>
          match w.serverErrorHandler
          case None => Rendering(body, Panicked(NilDereference))
          case Some(h) => Rendering(body + [ServerError(h, cause)], Returned(false))
  }

  /** The specification of WriteToPage. */
  function ErrorPage<A>(e: HTTPError, run: TemplateEngine<A>): Rendering<A>
    decreases 1
  {
    Render(ErrorWriter(e), run)
  }

  /** The status line Execute writes: none for the unset status 0. */
  function StatusLine<A>(code: int): seq<Event<A>> {
    if code != 0 then [WriteStatus(code)] else []
  }

  class ResponseWriter<A> {
    /** Everything written to the response so far, in order. */
    var events: seq<Event<A>>

    constructor ()
      ensures events == []
    {
      events := [];
    }

    method Record(e: Event<A>)
      modifies this
      ensures events == old(events) + [e]
    {
      events := events + [e];
    }
  }

  /** Writes the error page, or the template with its status, to the response. */
  method Execute<A>(w: TemplateWriter<A>, rw: ResponseWriter<A>, run: TemplateEngine<A>)
    returns (out: Outcome)
    modifies rw
    decreases if w.err.Some? then 2 else 0
    ensures rw.events == old(rw.events) + Render(w, run).events
    ensures out == Render(w, run).outcome
  {
    if w.err.Some? {
      out := WriteToPage(w.err.value, rw, run);
      return;
    }
    rw.Record(SetContentType(HtmlContent));
    if w.statusCode != 0 {
      rw.Record(WriteStatus(w.statusCode));
    }
    if w.template.None? {
      return Panicked(NilDereference);
    }
    var tmpl := w.template.value;
    rw.Record(RunTemplate(tmpl, w.tmplArgs));
    var err := run(tmpl, w.tmplArgs);
    if err.Some? {
      if w.serverErrorHandler.None? {
        return Panicked(NilDereference);
      }
      rw.Record(ServerError(w.serverErrorHandler.value, err.value));
    }
    out := Returned(err.None?);
  }

  /** Renders the error's page with the error's status; the writer it builds
      carries no error, so Execute does not come back here. */
  method WriteToPage<A>(e: HTTPError, rw: ResponseWriter<A>, run: TemplateEngine<A>)
    returns (out: Outcome)
    modifies rw
    decreases 1
    ensures rw.events == old(rw.events) + ErrorPage(e, run).events
    ensures out == ErrorPage(e, run).outcome
  {
    var tw: TemplateWriter<A>;
    match e {
      case StatusError(s, _) =>
        tw := DefaultWriter().SetTemplate(Some(ErrorTmpl));
        tw := tw.SetStatusCode(s).SetTmplArgs(ErrorArgs(e));
      case DatabaseError(_) =>
        tw := DefaultWriter().SetTemplate(Some(Error500Tmpl));
        tw := tw.SetStatusCode(500).SetTmplArgs(ErrorArgs(e));
    }
    out := Execute(tw, rw, run);
  }

  /** Position of each kind of event in a response: the header, then the status,
      then the template, then the fallback. */
  function Stage<A>(ev: Event<A>): nat {
    match ev
    case SetContentType(_) => 0
    case WriteStatus(_) => 1
    case RunTemplate(_, _) => 2
    case ServerError(_, _) => 3
  }

  /** One write sequence: it starts with the HTML content type, and every later
      event belongs to a strictly later stage, so no event of Execute's own
      appears twice, and none out of order. (The fallback itself may write
      more; that is outside the trace.) */
  ghost predicate SingleWrite<A>(evs: seq<Event<A>>) {
    && 1 <= |evs|
    && evs[0] == SetContentType(HtmlContent)
    && (forall i, j :: 0 <= i < j < |evs| ==> Stage(evs[i]) < Stage(evs[j]))
  }

  /** Whether a template is executed with the given arguments in the events. */
  ghost predicate Runs<A>(evs: seq<Event<A>>, t: Template, args: Args<A>) {
    exists i :: 0 <= i < |evs| && evs[i] == RunTemplate(t, args)
  }

  /** Whether the status line carries the given code. */
  ghost predicate WritesStatus<A>(evs: seq<Event<A>>, code: int) {
    exists i :: 0 <= i < |evs| && evs[i] == WriteStatus(code)
  }

  /** Whether the fallback is called. */
  ghost predicate CallsFallback<A>(evs: seq<Event<A>>) {
    exists i :: 0 <= i < |evs| && evs[i].ServerError?
  }

  /** Without an error, Execute sets the HTML content type, writes the status
      only when it is not 0, runs its own template once with its own arguments,
      calls the fallback exactly when the template fails, and reports whether
      the template succeeded. A missing template or a missing fallback that is
      needed panics. */
  lemma TemplatePath<A>(w: TemplateWriter<A>, run: TemplateEngine<A>)
    requires w.err.None?
    ensures var r := Render(w, run);
      && 1 <= |r.events| && r.events[0] == SetContentType(HtmlContent)
      && (forall c :: WritesStatus(r.events, c) <==> c == w.statusCode && c != 0)
      && (r.outcome.Panicked? <==> w.template.None? || (run(w.template.value, w.tmplArgs).Some? && w.serverErrorHandler.None?))
      && (forall t, a :: Runs(r.events, t, a) <==> w.template == Some(t) && a == w.tmplArgs)
      && (CallsFallback(r.events) <==> r.outcome == Returned(false))
      && (r.outcome.Returned? ==> (r.outcome.ok <==> run(w.template.value, w.tmplArgs).None?))
      && (r.outcome == Returned(false) ==>
            r.events[|r.events| - 1] == ServerError(w.serverErrorHandler.value, run(w.template.value, w.tmplArgs).value))
  {
    var r := Render(w, run);
    var head: seq<Event<A>> := [SetContentType(HtmlContent)] + StatusLine(w.statusCode);
    assert r.events[..|head|] == head;
    forall c ensures WritesStatus(r.events, c) <==> c == w.statusCode && c != 0 {
      if WritesStatus(r.events, c) {
        var i :| 0 <= i < |r.events| && r.events[i] == WriteStatus(c);
        assert i < |head|;
      }
      if c == w.statusCode && c != 0 {
        assert r.events[1] == WriteStatus(c);
      }
    }
    if w.template.None? {
      assert r.events == head;
    } else {
      var t := w.template.value;
      forall t', a ensures Runs(r.events, t', a) <==> t' == t && a == w.tmplArgs {
        if t' == t && a == w.tmplArgs {
          assert r.events[|head|] == RunTemplate(t, a);
        }
      }
      if r.outcome == Returned(false) {
        assert r.events[|r.events| - 1].ServerError?;
      } else {
        assert r.events == head + [RunTemplate(t, w.tmplArgs)];
        assert forall i :: 0 <= i < |r.events| ==> !r.events[i].ServerError?;
      }
    }
  }

  /** An error page is one write sequence with the error's status, its own
      template and the error as argument; it never panics, and it reports
      whether its template succeeded. */
  lemma ErrorPageWrites<A>(e: HTTPError, run: TemplateEngine<A>)
    ensures var r := ErrorPage(e, run);
      && r.outcome.Returned?
      && (r.outcome.ok <==> run(PageTemplate(e), ErrorArgs(e)).None?)
      && 1 <= |r.events| && r.events[0] == SetContentType(HtmlContent)
      && (forall c :: WritesStatus(r.events, c) <==> c == e.HTTPStatus() && c != 0)
      && (forall t, a :: Runs(r.events, t, a) <==> t == PageTemplate(e) && a == ErrorArgs(e))
  {
    TemplatePath(ErrorWriter<A>(e), run);
  }

  /** Once an error is set, Execute renders exactly the error's page: the
      writer's template, arguments, status and fallback are never consulted. */
  lemma ErrorWins<A>(w: TemplateWriter<A>, w': TemplateWriter<A>, run: TemplateEngine<A>)
    requires w.err.Some? && w'.err == w.err
    ensures Render(w, run) == Render(w', run) == ErrorPage(w.err.value, run)
  {
  }

  /** Every Execute writes a single write sequence: the error page and the
      writer's own template never both reach the writer. */
  lemma ExecuteWritesOnce<A>(w: TemplateWriter<A>, run: TemplateEngine<A>)
    ensures SingleWrite(Render(w, run).events)
    ensures Render(w, run).outcome.Returned? ==> exists t, a :: Runs(Render(w, run).events, t, a)
    decreases if w.err.Some? then 1 else 0
  {
    if w.err.Some? {
      ExecuteWritesOnce(ErrorWriter<A>(w.err.value), run);
    } else {
      var r := Render(w, run);
      if w.template.Some? {
        var head: seq<Event<A>> := [SetContentType(HtmlContent)] + StatusLine(w.statusCode);
        assert r.events[|head|] == RunTemplate(w.template.value, w.tmplArgs);
        assert Runs(r.events, w.template.value, w.tmplArgs);
      }
    }
  }

  /** SetError puts the error's status in the writer, and that is the status the
      error page writes; a status set after the error changes nothing. */
  lemma SetErrorStatusReachesWriter<A>(w: TemplateWriter<A>, e: HTTPError, code: int, run: TemplateEngine<A>)
    ensures var we := w.SetError(Some(e));
      && Render(we, run) == ErrorPage(e, run)
      && Render(we.SetStatusCode(code), run) == ErrorPage(e, run)
      && (forall c :: WritesStatus(Render(we, run).events, c) <==> c == we.statusCode && c != 0)
  {
    ErrorPageWrites(e, run);
  }
}
