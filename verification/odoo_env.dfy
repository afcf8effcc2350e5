/** The optional-add-on guard the workflow code uses before creating a
    record of another add-on: `X = self.env.get('model')` followed by
    `if not X: return False`. */
module OdooEnv {
  import opened Wrappers

  /** A recordset, by the ids it holds. */
  datatype Recordset = Recordset(ids: seq<int>)

  /** `env.get(model)`: the environment is a mapping from model names to
      the model's empty recordset, so a lookup gives that empty recordset
      when the add-on is installed and `None` when it is not. */
  function EnvGet(installed: bool): (r: Option<Recordset>)
    ensures r.Some? <==> installed
    ensures r.Some? ==> |r.value.ids| == 0
  {
    if installed then Some(Recordset([])) else None
  }

  /** Python's truth value of a lookup result: `None` and an empty
      recordset are false, a recordset with records is true. */
  predicate Truthy(r: Option<Recordset>) {
    r.Some? && |r.value.ids| > 0
  }

  /** `not env.get(model)` holds whether or not the add-on is installed,
      so the guarded creation never runs. */
  lemma GuardAlwaysReturns(installed: bool)
    ensures !Truthy(EnvGet(installed))
  {
  }
}
