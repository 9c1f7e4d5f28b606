/** The request middlewares of adit_radis_shared/common/middlewares.py:
    the maintenance switch, with its banner for staff, and the time zone
    a request is served in. Django's request and response objects are
    reduced to the fields the middlewares read; the downstream handler is
    the response it would give. */
module Middlewares {
  import opened Wrappers
  import opened Text
  import opened SettingsRows

  const BodyOpen: string := "<body"
  const Hint: string := "<div class='maintenance-hint'>Site is in maintenance mode!</div>"

  /** Where a match of `<body[^>]*>` at the start of `s` ends: just after
      the first `>`, if there is one. */
  function TagEnd(s: string): (r: Option<nat>)
    ensures r.Some? ==> 0 < r.value <= |s| && s[r.value - 1] == '>'
                        && forall j :: 0 <= j < r.value - 1 ==> s[j] != '>'
    ensures r.None? ==> forall j :: 0 <= j < |s| ==> s[j] != '>'
  {
    var i := IndexOf(s, '>');
    if i < |s| then Some(i + 1) else None
  }

  /** The last position of `c` in `t`. */
  function LastIndexOf(t: string, c: char): (r: Option<nat>)
    ensures r.Some? ==> r.value < |t| && t[r.value] == c && forall j :: r.value < j < |t| ==> t[j] != c
    ensures r.None? ==> forall j :: 0 <= j < |t| ==> t[j] != c
  {
    if t == [] then None
    else if t[|t| - 1] == c then Some(|t| - 1)
    else LastIndexOf(t[..|t| - 1], c)
  }

  /** Where a match of `<body.*>` at the start of `s` ends: `.` stops at a
      newline and `*` is greedy, so just after the LAST `>` of the line. */
  function GreedyTagEnd(s: string): (r: Option<nat>)
    requires StartsWith(s, BodyOpen)
    ensures r.Some? ==> |BodyOpen| < r.value <= |s| && s[r.value - 1] == '>'
  {
    var lineEnd := IndexOf(s, '\n');
    match LastIndexOf(s[..lineEnd], '>')
    case None => None
    case Some(i) => if i < |BodyOpen| then None else Some(i + 1)
  }

  /** `re.sub(r"<body.*>", r"\g<0>" + hint, s)` as written: the banner goes
      after the last `>` of each line that holds `<body`. */
  function GreedyWithHints(s: string, hint: string): string
    decreases |s|
  {
    if s == [] then []
    else if StartsWith(s, BodyOpen) && GreedyTagEnd(s).Some? then
      var n := GreedyTagEnd(s).value;
      s[..n] + hint + GreedyWithHints(s[n..], hint)
    else [s[0]] + GreedyWithHints(s[1..], hint)
  }

  /** `re.sub(r"<body[^>]*>", r"\g<0>" + hint, s)`: the banner goes right
      after each body tag. */
  function WithHints(s: string, hint: string): string
    decreases |s|
  {
    if s == [] then []
    else if StartsWith(s, BodyOpen) && TagEnd(s).Some? then
      var n := TagEnd(s).value;
      s[..n] + hint + WithHints(s[n..], hint)
    else [s[0]] + WithHints(s[1..], hint)
  }

  /** A body tag, whatever its attributes, is followed by the banner and
      then by the rest of the page, itself with banners after its body
      tags. */
  lemma BodyTagGetsHint(attrs: string, rest: string, hint: string)
    requires forall j :: 0 <= j < |attrs| ==> attrs[j] != '>'
    ensures WithHints(BodyOpen + attrs + ">" + rest, hint) == BodyOpen + attrs + ">" + hint + WithHints(rest, hint)
  {
    var tag := BodyOpen + attrs + ">";
    var s := tag + rest;
    assert s[..|BodyOpen|] == BodyOpen;
    assert IndexOf(s, '>') == |tag| - 1 by {
      assert s[|tag| - 1] == '>';
      forall j | 0 <= j < |tag| - 1 ensures s[j] != '>' {
        if j >= |BodyOpen| {
          assert s[j] == attrs[j - |BodyOpen|];
        }
      }
    }
    assert s[..|tag|] == tag && s[|tag|..] == rest;
  }

  /** A page without `<body` is left as it is. */
  lemma {:induction false} NoBodyUnchanged(s: string, hint: string)
    requires !Contains(s, BodyOpen)
    ensures WithHints(s, hint) == s
    decreases |s|
  {
    if s != [] {
      NoBodyUnchanged(s[1..], hint);
      assert [s[0]] + s[1..] == s;
    }
  }

  /** A page with no `b` holds no `<body`. */
  lemma {:induction false} NoLetterBNoBody(s: string)
    requires forall j :: 0 <= j < |s| ==> s[j] != 'b'
    ensures !Contains(s, BodyOpen)
    decreases |s|
  {
    if s != [] {
      NoLetterBNoBody(s[1..]);
      if |BodyOpen| <= |s| {
        assert s[1] != BodyOpen[1];
      }
    }
  }

  /** On a one-line page that starts with `<body` and ends with `>`, the
      expression as written matches the whole page, so the banner goes at
      its very end. */
  lemma GreedyHintAtLineEnd(s: string, hint: string)
    requires StartsWith(s, BodyOpen) && |s| > |BodyOpen| && s[|s| - 1] == '>'
    requires forall j :: 0 <= j < |s| ==> s[j] != '\n'
    ensures GreedyWithHints(s, hint) == s + hint
  {
    assert GreedyTagEnd(s) == Some(|s|) by {
      assert IndexOf(s, '\n') == |s|;
      assert s[..|s|] == s;
    }
    assert s[..|s|] == s && s[|s|..] == [];
  }

  /** The intended expression `<body[^>]*>` puts the banner right after
      the body tag of a page whose body holds no further body tag. */
  lemma BodyTagHintPlaced(attrs: string, inner: string, hint: string)
    requires forall j :: 0 <= j < |attrs| ==> attrs[j] != '>'
    requires forall j :: 0 <= j < |inner| ==> inner[j] != 'b'
    ensures WithHints(BodyOpen + attrs + ">" + inner, hint) == BodyOpen + attrs + ">" + hint + inner
  {
    BodyTagGetsHint(attrs, inner, hint);
    NoLetterBNoBody(inner);
    NoBodyUnchanged(inner, hint);
  }

  /** A body tag followed by markup, none of it holding a newline, is one
      line that starts with `<body`. */
  lemma OneLineBodyPage(attrs: string, inner: string)
    requires forall j :: 0 <= j < |attrs| ==> attrs[j] != '\n'
    requires forall j :: 0 <= j < |inner| ==> inner[j] != '\n'
    ensures var page := BodyOpen + attrs + ">" + inner;
      StartsWith(page, BodyOpen) && forall j :: 0 <= j < |page| ==> page[j] != '\n'
  {
    var tag := BodyOpen + attrs + ">";
    var page := tag + inner;
    assert page[..|BodyOpen|] == BodyOpen;
    forall j | 0 <= j < |page| ensures page[j] != '\n' {
      if j < |BodyOpen| {
        assert page[j] == BodyOpen[j];
      } else if j < |tag| - 1 {
        assert page[j] == attrs[j - |BodyOpen|];
      } else if j >= |tag| {
        assert page[j] == inner[j - |tag|];
      }
    }
  }

  /** On a one-line page `<body ...>` followed by markup that ends with a
      tag and holds no further body tag, the expression as written puts the
      banner at the end of the line, where the intended one puts it right
      after the body tag; the two differ whenever the last but one
      characters of the markup and of the banner differ. */
  lemma GreedyMisplacesHint(attrs: string, inner: string, hint: string)
    requires forall j :: 0 <= j < |attrs| ==> attrs[j] != '>' && attrs[j] != '\n'
    requires forall j :: 0 <= j < |inner| ==> inner[j] != 'b' && inner[j] != '\n'
    requires |inner| >= 2 && inner[|inner| - 1] == '>'
    requires |hint| >= 2 && hint[|hint| - 2] != inner[|inner| - 2]
    ensures var tag := BodyOpen + attrs + ">";
      && GreedyWithHints(tag + inner, hint) == tag + inner + hint
      && WithHints(tag + inner, hint) == tag + hint + inner
      && GreedyWithHints(tag + inner, hint) != WithHints(tag + inner, hint)
  {
    var tag := BodyOpen + attrs + ">";
    var page := tag + inner;
    OneLineBodyPage(attrs, inner);
    GreedyHintAtLineEnd(page, hint);
    BodyTagHintPlaced(attrs, inner, hint);
    var last := |page| + |hint| - 2;
    assert (page + hint)[last] == hint[|hint| - 2] != inner[|inner| - 2] == (tag + hint + inner)[last];
  }

  /** The page `<body><p>x</p>` with the maintenance banner is such a
      case. */
  lemma MaintenanceHintMisplaced()
    ensures var page := BodyOpen + ">" + "<p>x</p>";
      && GreedyWithHints(page, Hint) == page + Hint
      && WithHints(page, Hint) == BodyOpen + ">" + Hint + "<p>x</p>"
      && GreedyWithHints(page, Hint) != WithHints(page, Hint)
  {
    var inner := "<p>x</p>";
    assert Hint[|Hint| - 2] == 'v' && inner[|inner| - 2] == 'p';
    GreedyMisplacesHint("", inner, Hint);
    assert BodyOpen + "" + ">" == BodyOpen + ">";
  }

  /** The response fields the maintenance middleware reads and writes. */
  datatype Response = Response(contentType: Option<string>, content: string, status: nat)

  /** `is_html_response` */
  predicate IsHtmlResponse(r: Response) {
    r.contentType.Some? && StartsWith(r.contentType.value, "text/html")
  }

  /** The request fields the middlewares read. */
  datatype Request = Request(path: string, isStaff: bool)

  /** How `MaintenanceMiddleware.__call__` ends: the (possibly edited)
      response of the downstream handler, `ServiceUnavailable` raised, the
      rendered maintenance page, or the assertion of `ProjectSettings.get`
      failing. */
  datatype MaintenanceOutcome =
    | Passed(response: Response)
    | ServiceUnavailable
    | MaintenancePage(status: nat)
    | SettingsMissing

  /** The decision of `MaintenanceMiddleware.__call__` for the login and
      logout paths, the ProjectSettings rows and what the downstream handler
      answers; `edited` is the content the banner substitution makes of the
      downstream page. */
  function MaintenanceDecision(request: Request, loginPath: string, logoutPath: string,
                               settings: seq<ProjectSettingsRow>, downstream: Response, edited: string): MaintenanceOutcome
  {
    if request.path == loginPath || request.path == logoutPath then Passed(downstream)
    else
      match First(settings)
      case None => SettingsMissing
      case Some(project) =>
        if project.maintenance && !request.isStaff then
          if StartsWith(request.path, "/api/") then ServiceUnavailable else MaintenancePage(503)
        else if IsHtmlResponse(downstream) && project.maintenance && request.isStaff then
          Passed(downstream.(content := edited))
        else Passed(downstream)
  }

  /** `MaintenanceMiddleware.__call__` as written, with the greedy
      `<body.*>` substitution. */
  function Maintenance(request: Request, loginPath: string, logoutPath: string,
                       settings: seq<ProjectSettingsRow>, downstream: Response): (r: MaintenanceOutcome)
    ensures r.MaintenancePage? ==> r.status == 503
    ensures r.Passed? ==> r.response.status == downstream.status && r.response.contentType == downstream.contentType
    ensures r.Passed? && r.response != downstream ==> StaffPageInMaintenance(request, loginPath, logoutPath, settings, downstream)
  {
    MaintenanceDecision(request, loginPath, logoutPath, settings, downstream, GreedyWithHints(downstream.content, Hint))
  }

  /** The middleware with the intended `<body[^>]*>` substitution. */
  function CorrectedMaintenance(request: Request, loginPath: string, logoutPath: string,
                                settings: seq<ProjectSettingsRow>, downstream: Response): MaintenanceOutcome
  {
    MaintenanceDecision(request, loginPath, logoutPath, settings, downstream, WithHints(downstream.content, Hint))
  }

  /** A staff request for an HTML page while the site is in maintenance:
      the one case in which the middleware edits the response. */
  predicate StaffPageInMaintenance(request: Request, loginPath: string, logoutPath: string,
                                   settings: seq<ProjectSettingsRow>, downstream: Response)
  {
    request.path != loginPath && request.path != logoutPath && settings != []
    && settings[0].maintenance && request.isStaff && IsHtmlResponse(downstream)
  }

  /** The decision table: login and logout always pass; in maintenance
      mode only staff reach the handler, API callers get
      `ServiceUnavailable` and everybody else the 503 page; outside it the
      response is not touched; staff see the banner, placed by the greedy
      substitution, on HTML pages only, and nothing but the content ever
      changes. */
  lemma MaintenanceTable(request: Request, loginPath: string, logoutPath: string,
                         settings: seq<ProjectSettingsRow>, downstream: Response)
    ensures var r := Maintenance(request, loginPath, logoutPath, settings, downstream);
      && (request.path == loginPath || request.path == logoutPath ==> r == Passed(downstream))
      && (r == SettingsMissing <==> request.path != loginPath && request.path != logoutPath && settings == [])
      && (settings != [] && !settings[0].maintenance ==> r == Passed(downstream))
      && (r.Passed? <==> request.path == loginPath || request.path == logoutPath
                          || (settings != [] && (!settings[0].maintenance || request.isStaff)))
      && (r == ServiceUnavailable <==> request.path != loginPath && request.path != logoutPath && settings != []
                                       && settings[0].maintenance && !request.isStaff && StartsWith(request.path, "/api/"))
      && (r.MaintenancePage? ==> r.status == 503)
      && (r.Passed? ==> r.response.status == downstream.status && r.response.contentType == downstream.contentType)
      && (StaffPageInMaintenance(request, loginPath, logoutPath, settings, downstream) ==>
            r == Passed(downstream.(content := GreedyWithHints(downstream.content, Hint))))
      && (r.Passed? && !StaffPageInMaintenance(request, loginPath, logoutPath, settings, downstream) ==> r.response == downstream)
  {
  }

  /** The corrected middleware decides every request as the one as written
      does, and differs only in where it puts the banner. */
  lemma CorrectedOnlyMovesBanner(request: Request, loginPath: string, logoutPath: string,
                                 settings: seq<ProjectSettingsRow>, downstream: Response)
    ensures CorrectedMaintenance(request, loginPath, logoutPath, settings, downstream)
            == if StaffPageInMaintenance(request, loginPath, logoutPath, settings, downstream)
               then Passed(downstream.(content := WithHints(downstream.content, Hint)))
               else Maintenance(request, loginPath, logoutPath, settings, downstream)
  {
  }

  /** A staff member viewing the page `<body><p>x</p>` during maintenance
      gets the banner after `</p>` from the middleware as written, and
      right after `<body>` from the corrected one. */
  lemma MaintenanceBannerMisplaced(request: Request, loginPath: string, logoutPath: string,
                                   settings: seq<ProjectSettingsRow>, downstream: Response)
    requires StaffPageInMaintenance(request, loginPath, logoutPath, settings, downstream)
    requires downstream.content == BodyOpen + ">" + "<p>x</p>"
    ensures var asWritten := Maintenance(request, loginPath, logoutPath, settings, downstream);
      var corrected := CorrectedMaintenance(request, loginPath, logoutPath, settings, downstream);
      && asWritten.Passed? && corrected.Passed?
      && asWritten.response.content == downstream.content + Hint
      && corrected.response.content == BodyOpen + ">" + Hint + "<p>x</p>"
      && asWritten != corrected
  {
    MaintenanceHintMisplaced();
  }

  /** What `TimezoneMiddleware` does with the time zone: activate it,
      deactivate, or let the `UnknownTimeZoneError` of `pytz.timezone`
      escape. */
  datatype TimezoneAction = Activate(name: string) | Deactivate | UnknownTimeZone(name: string)

  /** The session's `django_timezone` when it is set and not empty, else
      USER_TIME_ZONE; an empty or missing result deactivates, and a name
      outside `zones`, the names `pytz.timezone` accepts, raises. */
  function TimezoneFor(session: Option<string>, userTimeZone: Option<string>, zones: set<string>): (r: TimezoneAction)
    ensures session.Some? && session.value != "" ==>
              r == if session.value in zones then Activate(session.value) else UnknownTimeZone(session.value)
    ensures (session.None? || session.value == "") && userTimeZone.Some? && userTimeZone.value != "" ==>
              r == if userTimeZone.value in zones then Activate(userTimeZone.value) else UnknownTimeZone(userTimeZone.value)
    ensures r.Deactivate? <==> (session.None? || session.value == "") && (userTimeZone.None? || userTimeZone.value == "")
    ensures r.Activate? ==> r.name != "" && r.name in zones
    ensures r.UnknownTimeZone? ==> r.name != "" && r.name !in zones
  {
    var tzname := if session.Some? && session.value != "" then session else userTimeZone;
    if tzname.Some? && tzname.value != "" then
      if tzname.value in zones then Activate(tzname.value) else UnknownTimeZone(tzname.value)
    else Deactivate
  }
}
