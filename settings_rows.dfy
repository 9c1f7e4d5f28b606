/** The settings rows of adit_radis_shared/common/models.py and the
    `init_db` hook of adit_radis_shared/common/apps.py, which runs after
    every migration and makes sure the site row and a ProjectSettings row
    exist. */
module SettingsRows {
  import opened Wrappers
  import opened Text

  /** A `django.contrib.sites` row. */
  datatype Site = Site(domain: string, name: string)

  /** A ProjectSettings row. */
  datatype ProjectSettingsRow = ProjectSettingsRow(announcement: string, maintenance: bool)

  /** An AppSettings row (of a concrete subclass). */
  datatype AppSettingsRow = AppSettingsRow(locked: bool)

  /** `ProjectSettings.objects.create()`: no announcement, maintenance off. */
  const DefaultProjectSettings := ProjectSettingsRow("", false)

  /** A new AppSettings row: not locked. */
  const DefaultAppSettings := AppSettingsRow(false)

  /** `cls.objects.first()` followed by `assert`: `None` where the
      assertion fails. */
  function First<T>(rows: seq<T>): (r: Option<T>)
    ensures r.None? <==> rows == []
    ensures r.Some? ==> r.value == rows[0]
  {
    if rows == [] then None else Some(rows[0])
  }

  /** The ProjectSettings rows after `init_db`: one default row when the
      table was empty, else the table as it was. */
  function EnsureProjectSettings(rows: seq<ProjectSettingsRow>): (r: seq<ProjectSettingsRow>)
    ensures r != []
    ensures rows != [] ==> r == rows
    ensures rows == [] ==> r == [DefaultProjectSettings]
  {
    if rows == [] then [DefaultProjectSettings] else rows
  }

  /** `__str__` of SiteProfile and ProjectSettings: the class name and the
      primary key in brackets (`None` before the row is saved). */
  function Describe(className: string, pk: Option<nat>): (r: string)
    ensures |r| >= |className| + 3
    ensures r[..|className|] == className && r[|className|..|className| + 2] == " [" && r[|r| - 1] == ']'
  {
    className + " [" + (if pk.Some? then NatToString(pk.value) else "None") + "]"
  }

  /** Two saved rows of one class with different keys print differently. */
  lemma DescribeDistinguishes(className: string, a: nat, b: nat)
    requires a != b
    ensures Describe(className, Some(a)) != Describe(className, Some(b))
  {
    if Describe(className, Some(a)) == Describe(className, Some(b)) {
      var prefix := className + " [";
      var da := NatToString(a);
      var db := NatToString(b);
      assert prefix + da + "]" == prefix + db + "]";
      assert |da| == |db|;
      assert da == (prefix + da + "]")[|prefix|..|prefix| + |da|];
      assert db == (prefix + db + "]")[|prefix|..|prefix| + |db|];
      NatToStringInjective(a, b);
    }
  }

  /** The tables `init_db` touches, and whether `ready` has hooked it to
      the `post_migrate` signal. */
  class CommonDb {
    var sites: map<nat, Site>
    var projectSettings: seq<ProjectSettingsRow>
    var initOnMigrate: bool

    constructor (sites: map<nat, Site>, projectSettings: seq<ProjectSettingsRow>)
      ensures this.sites == sites && this.projectSettings == projectSettings && !initOnMigrate
    {
      this.sites := sites;
      this.projectSettings := projectSettings;
      initOnMigrate := false;
    }

    /** `CommonConfig.ready`: `init_db` runs after every migration from now
        on. */
    method Ready()
      modifies this
      ensures initOnMigrate && sites == old(sites) && projectSettings == old(projectSettings)
    {
      initOnMigrate := true;
    }

    /** `init_db` for the settings SITE_ID, SITE_DOMAIN and SITE_NAME: the
        site row is updated or created, and a ProjectSettings row is created
        only when there is none. */
    method InitDb(siteId: nat, domain: string, name: string)
      modifies this
      ensures sites == old(sites)[siteId := Site(domain, name)]
      ensures projectSettings == EnsureProjectSettings(old(projectSettings))
      ensures initOnMigrate == old(initOnMigrate)
    {
      sites := sites[siteId := Site(domain, name)];
      if projectSettings == [] {
        projectSettings := projectSettings + [DefaultProjectSettings];
      }
    }

    /** The `post_migrate` signal for this app. */
    method PostMigrate(siteId: nat, domain: string, name: string)
      modifies this
      ensures initOnMigrate == old(initOnMigrate)
      ensures old(initOnMigrate) ==> sites == old(sites)[siteId := Site(domain, name)]
                                     && projectSettings == EnsureProjectSettings(old(projectSettings))
      ensures !old(initOnMigrate) ==> sites == old(sites) && projectSettings == old(projectSettings)
    {
      if initOnMigrate {
        InitDb(siteId, domain, name);
      }
    }
  }

  /** `init_db` as a step on the two tables. */
  function InitDbStep(sites: map<nat, Site>, rows: seq<ProjectSettingsRow>, siteId: nat, domain: string, name: string)
    : (r: (map<nat, Site>, seq<ProjectSettingsRow>))
    ensures siteId in r.0 && r.0[siteId] == Site(domain, name)
    ensures forall id :: id in sites && id != siteId ==> id in r.0 && r.0[id] == sites[id]
    ensures First(r.1).Some?
  {
    (sites[siteId := Site(domain, name)], EnsureProjectSettings(rows))
  }

  /** Running `init_db` twice does what running it once does, and existing
      settings are kept. */
  lemma InitDbIdempotent(sites: map<nat, Site>, rows: seq<ProjectSettingsRow>, siteId: nat, domain: string, name: string)
    ensures var (s1, r1) := InitDbStep(sites, rows, siteId, domain, name);
      InitDbStep(s1, r1, siteId, domain, name) == (s1, r1)
    ensures rows != [] ==> InitDbStep(sites, rows, siteId, domain, name).1 == rows
  {
    var (s1, r1) := InitDbStep(sites, rows, siteId, domain, name);
    assert s1[siteId := Site(domain, name)] == s1;
  }

  /** After `init_db`, `ProjectSettings.get` finds a row: the first one
      that existed, or the default one. */
  lemma GetAfterInit(rows: seq<ProjectSettingsRow>)
    ensures First(EnsureProjectSettings(rows)) == Some(if rows == [] then DefaultProjectSettings else rows[0])
  {
  }
}
