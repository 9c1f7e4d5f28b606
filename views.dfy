/** The views of adit_radis_shared/common/views.py (common/views.py holds
    the same HtmxTemplateView, BaseUpdatePreferencesView and
    AdminProxyView): a page only htmx may fetch, the home page's
    announcement, the preferences a client posts, and the staff-only
    broadcast and proxy views. Rendering, the mail job and the proxy itself
    are not part of this model; the view returns what it hands on. */
module Views {
  import opened Wrappers
  import opened Accounts
  import opened SettingsRows

  /** The `SuspiciousOperation` the views raise. */
  datatype ViewError = SuspiciousOperation(message: string) | SettingsMissing

  /** `HtmxTemplateView.get`: the rendered page for an htmx request,
      `SuspiciousOperation` for any other. */
  function HtmxGet<Page>(isHtmx: bool, rendered: Page): (r: Result<Page, ViewError>)
    ensures r.Ok? <==> isHtmx
    ensures r.Ok? ==> r.value == rendered
    ensures r.Err? ==> r.error == SuspiciousOperation("")
  {
    if isHtmx then Ok(rendered) else Err(SuspiciousOperation(""))
  }

  /** `BaseHomeView.get_context_data`: the context of the template view
      with the announcement of the ProjectSettings row added. */
  function HomeContext(context: map<string, string>, settings: seq<ProjectSettingsRow>)
    : (r: Result<map<string, string>, ViewError>)
    ensures r.Err? <==> settings == []
    ensures r.Ok? ==> "announcement" in r.value && r.value["announcement"] == settings[0].announcement
    ensures r.Ok? ==> forall k :: k in context && k != "announcement" ==> k in r.value && r.value[k] == context[k]
    ensures r.Ok? ==> r.value.Keys == context.Keys + {"announcement"}
  {
    match First(settings)
    case None => Err(SettingsMissing)
    case Some(project) => Ok(context["announcement" := project.announcement])
  }

  /** Once `init_db` has run, the home page always renders, with no
      announcement unless a settings row already held one. */
  lemma HomeAfterInit(context: map<string, string>, rows: seq<ProjectSettingsRow>)
    ensures var r := HomeContext(context, EnsureProjectSettings(rows));
      && r.Ok?
      && r.value["announcement"] == (if rows == [] then "" else rows[0].announcement)
  {
    GetAfterInit(rows);
  }

  // ---------------------------------------------------------------------
  // BaseUpdatePreferencesView.post

  /** A stored preference: the posted strings "true" and "false" become
      booleans, any other value is kept as a string. */
  datatype PrefValue = BoolPref(b: bool) | StrPref(s: string)

  /** The coercion of one posted value. */
  function Coerce(value: string): (r: PrefValue)
    ensures r.BoolPref? <==> value == "true" || value == "false"
    ensures r.BoolPref? ==> (r.b <==> value == "true")
    ensures r.StrPref? ==> r.s == value
  {
    if value == "true" then BoolPref(true)
    else if value == "false" then BoolPref(false)
    else StrPref(value)
  }

  /** The first posted key that is not allowed, if any. */
  function FirstInvalid(posted: seq<(string, string)>, allowed: seq<string>): (r: Option<nat>)
    ensures r.Some? ==> r.value < |posted| && posted[r.value].0 !in allowed
                        && forall j :: 0 <= j < r.value ==> posted[j].0 in allowed
    ensures r.None? ==> forall j :: 0 <= j < |posted| ==> posted[j].0 in allowed
  {
    if posted == [] then None
    else if posted[0].0 !in allowed then Some(0)
    else match FirstInvalid(posted[1..], allowed)
      case None => None
      case Some(i) => Some(i + 1)
  }

  /** The preferences after `preferences[key] = value` for each posted
      pair in order. */
  function Updated(prefs: map<string, PrefValue>, posted: seq<(string, string)>): map<string, PrefValue>
  {
    if posted == [] then prefs
    else
      var (key, value) := posted[|posted| - 1];
      Updated(prefs, posted[..|posted| - 1])[key := Coerce(value)]
  }

  /** The value last posted for `key`. */
  function LastPosted(posted: seq<(string, string)>, key: string): (r: Option<string>)
    ensures r.None? <==> forall j :: 0 <= j < |posted| ==> posted[j].0 != key
    ensures r.Some? ==> exists j :: 0 <= j < |posted| && posted[j] == (key, r.value)
  {
    if posted == [] then None
    else if posted[|posted| - 1].0 == key then Some(posted[|posted| - 1].1)
    else LastPosted(posted[..|posted| - 1], key)
  }

  /** A posted key holds the coercion of the value last posted for it
      (which is what `QueryDict.items()` yields); a key that was not posted
      keeps its value, or stays absent. */
  lemma {:induction false} UpdatedLookup(prefs: map<string, PrefValue>, posted: seq<(string, string)>, key: string)
    ensures key in Updated(prefs, posted) <==> key in prefs || LastPosted(posted, key).Some?
    ensures LastPosted(posted, key).Some? ==> Updated(prefs, posted)[key] == Coerce(LastPosted(posted, key).value)
    ensures LastPosted(posted, key).None? && key in prefs ==> Updated(prefs, posted)[key] == prefs[key]
    decreases |posted|
  {
    if posted != [] {
      UpdatedLookup(prefs, posted[..|posted| - 1], key);
    }
  }

  /** Posting the same pairs twice stores nothing more. */
  lemma {:induction false} UpdatedIdempotent(prefs: map<string, PrefValue>, posted: seq<(string, string)>)
    ensures Updated(Updated(prefs, posted), posted) == Updated(prefs, posted)
  {
    var once := Updated(prefs, posted);
    var twice := Updated(once, posted);
    forall key | true
      ensures key in twice <==> key in once
      ensures key in twice ==> twice[key] == once[key]
    {
      UpdatedLookup(prefs, posted, key);
      UpdatedLookup(once, posted, key);
    }
  }

  /** The outcome of the view. */
  datatype PostOutcome = Saved | Rejected(key: string)

  /** A signed-in user's stored preferences. */
  class PreferencesOwner {
    var preferences: map<string, PrefValue>

    constructor (preferences: map<string, PrefValue>)
      ensures this.preferences == preferences
    {
      this.preferences := preferences;
    }

    /** `post(request)` with the posted pairs in order and the view's
        `allowed_keys`: an unknown key stops the view before anything is
        stored; otherwise every pair is stored and the user saved. */
    method Post(posted: seq<(string, string)>, allowed: seq<string>) returns (r: PostOutcome)
      modifies this
      ensures r.Rejected? <==> FirstInvalid(posted, allowed).Some?
      ensures r.Rejected? ==> r.key == posted[FirstInvalid(posted, allowed).value].0
                              && preferences == old(preferences)
      ensures r.Saved? ==> preferences == Updated(old(preferences), posted)
    {
      var i := 0;
      while i < |posted|
        invariant 0 <= i <= |posted|
        invariant forall j :: 0 <= j < i ==> posted[j].0 in allowed
      {
        if posted[i].0 !in allowed {
          return Rejected(posted[i].0);
        }
        i := i + 1;
      }
      i := 0;
      while i < |posted|
        invariant 0 <= i <= |posted|
        invariant preferences == Updated(old(preferences), posted[..i])
      {
        var (key, value) := posted[i];
        preferences := preferences[key := Coerce(value)];
        assert posted[..i + 1][..i] == posted[..i];
        i := i + 1;
      }
      assert posted[..|posted|] == posted;
      return Saved;
    }
  }

  /** After a successful post only allowed keys have changed. */
  lemma OnlyAllowedChange(prefs: map<string, PrefValue>, posted: seq<(string, string)>, allowed: seq<string>, key: string)
    requires FirstInvalid(posted, allowed).None?
    requires key !in allowed
    ensures key in Updated(prefs, posted) <==> key in prefs
    ensures key in prefs ==> Updated(prefs, posted)[key] == prefs[key]
  {
    UpdatedLookup(prefs, posted, key);
  }

  // ---------------------------------------------------------------------
  // Staff-only views

  /** The user making a request, as the mixins see it. */
  datatype Viewer = Anonymous | SignedIn(isStaff: bool)

  /** What `LoginRequiredMixin` followed by `UserPassesTestMixin` makes of
      a request. */
  datatype Access = RedirectToLogin | Forbidden | Granted

  /** `BroadcastView` and `AdminProxyView`: signed-in users only, and then
      only staff (`test_func` returns `is_staff`). */
  function StaffAccess(v: Viewer): (r: Access)
    ensures r == Granted <==> v.SignedIn? && v.isStaff
    ensures r == RedirectToLogin <==> v.Anonymous?
    ensures r == Forbidden <==> v.SignedIn? && !v.isStaff
  {
    match v
    case Anonymous => RedirectToLogin
    case SignedIn(isStaff) => if isStaff then Granted else Forbidden
  }

  /** The job `BroadcastView.form_valid` defers, the message it flashes and
      the page it redirects to. */
  datatype Broadcast = Broadcast(emails: seq<string>, subject: string, message: string,
                                 flash: string, redirect: string)

  const BroadcastFlash := "Email will be sent to selected users."

  /** The recipients' addresses, in the order the form lists them. */
  function Emails(recipients: seq<UserRow>): (r: seq<string>)
    ensures |r| == |recipients|
    ensures forall i :: 0 <= i < |recipients| ==> r[i] == recipients[i].email
  {
    seq(|recipients|, i requires 0 <= i < |recipients| => recipients[i].email)
  }

  /** Mailing to two lists of recipients is mailing to the first, then to
      the second. */
  lemma EmailsAppend(a: seq<UserRow>, b: seq<UserRow>)
    ensures Emails(a + b) == Emails(a) + Emails(b)
  {
  }

  /** `form_valid` for the cleaned form fields and the request path: one
      address per recipient, subject and message as entered, the success
      message, and back to the same page. */
  function FormValid(recipients: seq<UserRow>, subject: string, message: string, path: string): (r: Broadcast)
    ensures r.emails == Emails(recipients)
    ensures r.subject == subject && r.message == message
    ensures r.flash == BroadcastFlash && r.redirect == path
  {
    Broadcast(Emails(recipients), subject, message, BroadcastFlash, path)
  }
}
