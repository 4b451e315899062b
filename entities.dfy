/** The three collections the backend mirrors: the keys of `sync_status`. */
module Entities {
  import opened Wrappers

  datatype Entity = Deals | Tasks | Projects

  /** The key of the entity in `sync_status` and the name of its table. */
  function Name(e: Entity): string {
    match e
    case Deals => "deals"
    case Tasks => "tasks"
    case Projects => "projects"
  }

  /** `entity in sync_status` for the path segment of a route. */
  function ParseEntity(name: string): (r: Option<Entity>)
    ensures r.Some? ==> Name(r.value) == name
  {
    if name == "deals" then Some(Deals)
    else if name == "tasks" then Some(Tasks)
    else if name == "projects" then Some(Projects)
    else None
  }

  /** Every entity's own name is accepted, and it names that entity again. */
  lemma ParseName(e: Entity)
    ensures ParseEntity(Name(e)) == Some(e)
  {
  }

  /** A name is accepted exactly when it is one of the three entity names. */
  lemma ParseEntityExact(name: string)
    ensures ParseEntity(name).Some? <==> exists e: Entity :: Name(e) == name
  {
    if exists e: Entity :: Name(e) == name {
      var e: Entity :| Name(e) == name;
      ParseName(e);
    }
  }
}
