/** The declarative store layout: `DatabaseConfig` and the application's `defaultConfig`. */
module Schema {

  /** One secondary index: its name and the record property it indexes. */
  datatype IndexSpec = IndexSpec(name: string, keyPath: string)

  /** One object store: its name, the property holding the primary key, whether a key
      generator supplies missing keys, and its (non-unique) indexes. */
  datatype StoreSpec = StoreSpec(name: string, keyPath: string, autoIncrement: bool, indexes: seq<IndexSpec>)

  datatype DatabaseConfig = DatabaseConfig(name: string, version: int, stores: seq<StoreSpec>)

  function StoreNames(specs: seq<StoreSpec>): (names: seq<string>)
    ensures |names| == |specs|
    ensures forall i :: 0 <= i < |specs| ==> names[i] == specs[i].name
  {
    seq(|specs|, i requires 0 <= i < |specs| => specs[i].name)
  }

  /** Store names are distinct, as the property names of the `stores` object are. */
  predicate DistinctNames(specs: seq<StoreSpec>)
  {
    forall i, j :: 0 <= i < j < |specs| ==> specs[i].name != specs[j].name
  }

  /** The configuration the application opens the database with. */
  function DefaultConfig(): (c: DatabaseConfig)
    ensures c.name == "EnterpriseManagementDB" && c.version == 1
    ensures StoreNames(c.stores) ==
      ["users", "tasks", "customers", "projects", "notifications", "settings", "auditLogs"]
    ensures DistinctNames(c.stores)
    ensures forall i :: 0 <= i < |c.stores| && c.stores[i].name != "settings" ==>
      c.stores[i].keyPath == "id" && c.stores[i].autoIncrement
    ensures forall i :: 0 <= i < |c.stores| && c.stores[i].name == "settings" ==>
      c.stores[i].keyPath == "key" && !c.stores[i].autoIncrement
  {
    DatabaseConfig("EnterpriseManagementDB", 1, [
      StoreSpec("users", "id", true,
        [IndexSpec("email", "email"), IndexSpec("department", "department"), IndexSpec("role", "role")]),
      StoreSpec("tasks", "id", true,
        [IndexSpec("assignee", "assigneeId"), IndexSpec("status", "status"),
         IndexSpec("priority", "priority"), IndexSpec("dueDate", "dueDate")]),
      StoreSpec("customers", "id", true,
        [IndexSpec("name", "name"), IndexSpec("email", "email"),
         IndexSpec("status", "status"), IndexSpec("createdAt", "createdAt")]),
      StoreSpec("projects", "id", true,
        [IndexSpec("name", "name"), IndexSpec("status", "status"),
         IndexSpec("manager", "managerId"), IndexSpec("startDate", "startDate")]),
      StoreSpec("notifications", "id", true,
        [IndexSpec("userId", "userId"), IndexSpec("type", "type"),
         IndexSpec("isRead", "isRead"), IndexSpec("timestamp", "timestamp")]),
      StoreSpec("settings", "key", false, [IndexSpec("category", "category")]),
      StoreSpec("auditLogs", "id", true,
        [IndexSpec("userId", "userId"), IndexSpec("action", "action"),
         IndexSpec("timestamp", "timestamp"), IndexSpec("resource", "resource")])
    ])
  }

  /** The seven store names, in the order the configuration declares them. */
  const AllStores: seq<string> :=
    ["users", "tasks", "customers", "projects", "notifications", "settings", "auditLogs"]

  /** The `tasks` store's `status` index looks at the `status` property. */
  lemma TasksStatusIndex()
    ensures DefaultConfig().stores[1].name == "tasks"
    ensures IndexSpec("status", "status") in DefaultConfig().stores[1].indexes
  {
  }
}
