/** `procrastinate_on_delete_sql` of
    adit_radis_shared/common/utils/migration_utils.py: the SQL that makes
    the `queued_job_id` key of a model's table a foreign key to
    Procrastinate's jobs with `ON DELETE SET NULL`, or, for the reverse
    migration, without it. */
module MigrationSql {
  import opened Text

  /** `${app_name}_${model_name}` */
  function TableName(app: string, model: string): string {
    app + "_" + model
  }

  const Indent := "\n        "
  const OnDeleteClause := "\nON DELETE SET NULL;"

  /** The template with the two names substituted, as far as its trailing
      indentation. */
  function ConstraintSql(app: string, model: string): (r: string)
    ensures StartsWith(r, Indent + "ALTER TABLE " + TableName(app, model))
    ensures r[|r| - 1] == ' '
  {
    var t := TableName(app, model);
    var head := Indent + "ALTER TABLE " + t;
    var r := head
      + Indent + "DROP CONSTRAINT " + t + "_queued_job_id_key,"
      + Indent + "ADD CONSTRAINT " + t + "_queued_job_id_key"
      + Indent + "FOREIGN KEY (queued_job_id) "
      + Indent + "REFERENCES procrastinate_jobs(id) "
      + Indent;
    assert r[..|head|] == head;
    r
  }

  /** `procrastinate_on_delete_sql(app_name, model_name, reverse)` */
  function OnDeleteSql(app: string, model: string, reverse: bool): (r: string)
    ensures reverse ==> r == ConstraintSql(app, model)
    ensures !reverse ==> r == ConstraintSql(app, model) + OnDeleteClause
  {
    ConstraintSql(app, model) + (if reverse then "" else OnDeleteClause)
  }

  /** The reverse SQL is the forward SQL without its last clause: a prefix
      of it, and the only one of the two that does not end with `;`. */
  lemma ReverseIsPrefix(app: string, model: string)
    ensures var forward, backward := OnDeleteSql(app, model, false), OnDeleteSql(app, model, true);
      && backward < forward
      && forward[|backward|..] == OnDeleteClause
      && forward[|forward| - 1] == ';' && backward[|backward| - 1] != ';'
  {
    var forward, backward := OnDeleteSql(app, model, false), OnDeleteSql(app, model, true);
    assert forward == backward + OnDeleteClause;
    assert OnDeleteClause[|OnDeleteClause| - 1] == ';';
  }

  /** Both directions name the same table first. */
  lemma SameTable(app: string, model: string, reverse: bool)
    ensures StartsWith(OnDeleteSql(app, model, reverse), Indent + "ALTER TABLE " + TableName(app, model))
  {
    var head := Indent + "ALTER TABLE " + TableName(app, model);
    var c := ConstraintSql(app, model);
    if !reverse {
      assert (c + OnDeleteClause)[..|head|] == c[..|head|];
    }
  }
}
