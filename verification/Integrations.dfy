/** The integrations table and its default flag (internal/store/integrations.go:59-107, 133-188).
    The unique index on (kind) where is_default = 1 is left out of the operations on purpose:
    at most one default per kind is proved of the statements themselves, after each of them,
    so the index never has anything to refuse. */
module Integrations {
  import opened Wrappers

  type Id = string
  type Kind = string

  const SOURCE_KINDS: set<Kind> := {"github", "gitlab", "gitea", "forgejo", "codeberg"}
  const KINDS: set<Kind> := SOURCE_KINDS + {"kaneo", "jira", "linear"}

  datatype Row = Row(kind: Kind, name: string, baseUrl: Option<string>, payload: string, isDefault: bool)

  datatype CreateInput = CreateInput(kind: Kind, name: string, baseUrl: Option<string>, payload: string,
                                     isDefault: bool)

  /** `payload` and `isDefault` left out keep what is stored. */
  datatype UpdateInput = UpdateInput(name: string, baseUrl: Option<string>, payload: Option<string>,
                                     isDefault: Option<bool>)

  type Table = map<Id, Row>

  /** The CHECK constraints of the row. */
  predicate Allowed(row: Row) {
    && row.kind in KINDS
    && (row.isDefault ==> row.kind in SOURCE_KINDS)
    && (row.baseUrl.None? <==> row.kind in {"github", "codeberg", "linear"})
  }

  /** Only sources can be defaults, and only the hosted services have no address of their own. */
  predicate FitsKind(kind: Kind, baseUrl: Option<string>, isDefault: bool) {
    if kind == "github" || kind == "codeberg" then baseUrl.None?
    else if kind == "linear" then baseUrl.None? && !isDefault
    else if kind == "gitlab" || kind == "gitea" || kind == "forgejo" then baseUrl.Some?
    else (kind == "kaneo" || kind == "jira") && baseUrl.Some? && !isDefault
  }

  // ---- statements -----------------------------------------------------------------------------

  /** ClearDefaultIntegrationForKind: every default of the kind but `id` loses the flag. */
  function ClearDefault(rows: Table, kind: Kind, id: Id): Table {
    map k | k in rows :: if rows[k].kind == kind && k != id then rows[k].(isDefault := false) else rows[k]
  }

  function NewRow(input: CreateInput): Row {
    Row(input.kind, input.name, input.baseUrl, input.payload, input.isDefault)
  }

  /** UpdateIntegration: the kind is not among the columns it sets. */
  function Updated(row: Row, input: UpdateInput): Row {
    row.(name := input.name, baseUrl := input.baseUrl,
         payload := if input.payload.Some? then input.payload.value else row.payload,
         isDefault := if input.isDefault.Some? then input.isDefault.value else row.isDefault)
  }

  // ---- transactions -----------------------------------------------------------------------------

  datatype Commit = Committed | RolledBack | CommittedReportedFailed

  /** Whether each statement reaches the database, and how the commit goes. */
  datatype Environment = Environment(clearRuns: bool, writeRuns: bool, commit: Commit)

  datatype Failure = NotFound | Refused | Broken

  class Store {
    var rows: Table

    constructor ()
      ensures rows == map[]
    {
      rows := map[];
    }

    /** Create: in one transaction, with a fresh id. */
    method Create(id: Id, input: CreateInput, env: Environment) returns (result: Result<Row, Failure>)
      requires id !in rows
      modifies this
      ensures rows == AfterCreate(old(rows), id, input, env)
      ensures result.Err? && !env.commit.CommittedReportedFailed? ==> rows == old(rows)
      ensures result.Ok? <==> Allowed(NewRow(input)) && Reported(env, input.isDefault)
      ensures result.Ok? ==>
                && id in rows && rows[id] == result.value
                && result.value == Row(input.kind, input.name, input.baseUrl, input.payload, input.isDefault)
      ensures result.Ok? ==> FitsKind(input.kind, input.baseUrl, input.isDefault)
      ensures result == Err(Refused) <==>
                !FitsKind(input.kind, input.baseUrl, input.isDefault) && (input.isDefault ==> env.clearRuns)
                  && env.writeRuns
    {
      var tx := rows;
      if input.isDefault {
        if !env.clearRuns { return Err(Broken); }
        tx := ClearDefault(tx, input.kind, id);
      }
      var row := NewRow(input);
      if !env.writeRuns { return Err(Broken); }
      if !Allowed(row) { return Err(Refused); }
      tx := tx[id := row];
      match env.commit {
        case RolledBack => return Err(Broken);
        case CommittedReportedFailed => rows := tx; return Err(Broken);
        case Committed => rows := tx; return Ok(row);
      }
    }

    /** Update: in one transaction. */
    method Update(id: Id, input: UpdateInput, env: Environment) returns (result: Result<Row, Failure>)
      modifies this
      ensures rows == AfterUpdate(old(rows), id, input, env)
      ensures result.Err? && !env.commit.CommittedReportedFailed? ==> rows == old(rows)
      ensures id !in old(rows) ==> result == Err(NotFound)
      ensures id in old(rows) ==>
                var row := Updated(old(rows)[id], input);
                && (result.Ok? <==> Allowed(row) && Reported(env, row.isDefault))
                && (result.Ok? ==> rows[id] == result.value == row)
      ensures result.Ok? ==>
                && id in old(rows) && result.value.kind == old(rows)[id].kind
                && result.value.name == input.name && result.value.baseUrl == input.baseUrl
                && result.value.payload == (if input.payload.None? then old(rows)[id].payload else input.payload.value)
                && result.value.isDefault == (if input.isDefault.None? then old(rows)[id].isDefault
                                              else input.isDefault.value)
                && FitsKind(result.value.kind, result.value.baseUrl, result.value.isDefault)
    {
      var tx := rows;
      if id !in tx { return Err(NotFound); }
      var existing := tx[id];
      var isDefault := existing.isDefault;
      if input.isDefault.Some? {
        isDefault := input.isDefault.value;
      }
      if isDefault {
        if !env.clearRuns { return Err(Broken); }
        tx := ClearDefault(tx, existing.kind, id);
      }
      if !env.writeRuns { return Err(Broken); }
      var row := Updated(tx[id], input);
      if !Allowed(row) { return Err(Refused); }
      tx := tx[id := row];
      match env.commit {
        case RolledBack => return Err(Broken);
        case CommittedReportedFailed => rows := tx; return Err(Broken);
        case Committed => rows := tx; return Ok(row);
      }
    }

    /** Delete: refused by the foreign keys while a project or repo refers to the row. */
    method Delete(id: Id, referenced: bool, runs: bool)
      modifies this
      ensures rows == AfterDelete(old(rows), id, referenced, runs)
      ensures rows.Keys == if referenced || !runs then old(rows).Keys else old(rows).Keys - {id}
      ensures forall other | other in rows :: rows[other] == old(rows)[other]
    {
      if runs && !referenced {
        rows := rows - {id};
      }
    }
  }

  predicate Reaches(env: Environment, clears: bool) {
    (clears ==> env.clearRuns) && env.writeRuns && !env.commit.RolledBack?
  }

  predicate Reported(env: Environment, clears: bool) {
    Reaches(env, clears) && env.commit.Committed?
  }

  function AfterCreate(rows: Table, id: Id, input: CreateInput, env: Environment): Table {
    if !Allowed(NewRow(input)) || !Reaches(env, input.isDefault) then rows
    else (if input.isDefault then ClearDefault(rows, input.kind, id) else rows)[id := NewRow(input)]
  }

  function AfterUpdate(rows: Table, id: Id, input: UpdateInput, env: Environment): Table {
    if id !in rows then rows
    else
      var row := Updated(rows[id], input);
      if !Allowed(row) || !Reaches(env, row.isDefault) then rows
      else (if row.isDefault then ClearDefault(rows, row.kind, id) else rows)[id := row]
  }

  function AfterDelete(rows: Table, id: Id, referenced: bool, runs: bool): Table {
    if runs && !referenced then rows - {id} else rows
  }

  // ---- the default of a kind ------------------------------------------------------------------

  function Defaults(rows: Table, kind: Kind): set<Id> {
    set k | k in rows && rows[k].kind == kind && rows[k].isDefault
  }

  /** What the unique index asks of the table. */
  ghost predicate OneDefaultPerKind(rows: Table) {
    forall kind, j, k | j in Defaults(rows, kind) && k in Defaults(rows, kind) :: j == k
  }

  ghost predicate TableOk(rows: Table) {
    OneDefaultPerKind(rows) && forall k | k in rows :: Allowed(rows[k])
  }

  /** Whatever the fate of the transaction, Create changes no default of another kind; with the
      flag the new row becomes the default of its kind, alone, exactly when it is stored. */
  lemma CreateMovesDefault(rows: Table, id: Id, input: CreateInput, env: Environment, kind: Kind)
    requires id !in rows
    ensures var after := AfterCreate(rows, id, input, env);
            && after.Keys == rows.Keys + (if id in after then {id} else {})
            && Defaults(after, kind) == (if id in after && input.isDefault && kind == input.kind then {id}
                                         else Defaults(rows, kind))
  {}

  /** Update: the flag set moves the default of the row's kind to the row, cleared takes it from
      the row only, and left out changes the default of no kind (given there was one at most). */
  lemma UpdateMovesDefault(rows: Table, id: Id, input: UpdateInput, env: Environment, kind: Kind)
    requires OneDefaultPerKind(rows) && id in rows
    ensures var after := AfterUpdate(rows, id, input, env);
            && after.Keys == rows.Keys
            && (forall k | k in rows :: after[k].kind == rows[k].kind)
            && (kind != rows[id].kind || input.isDefault.None? ==> Defaults(after, kind) == Defaults(rows, kind))
            && (input.isDefault == Some(true) && after != rows ==> Defaults(after, rows[id].kind) == {id})
            && (input.isDefault == Some(false) && after != rows ==>
                Defaults(after, rows[id].kind) == Defaults(rows, rows[id].kind) - {id})
  {
    var row := Updated(rows[id], input);
    forall k: Kind
      ensures row.isDefault ==>
                Defaults(ClearDefault(rows, row.kind, id)[id := row], k) == if k == row.kind then {id}
                  else Defaults(rows, k)
      ensures !row.isDefault ==>
                Defaults(rows[id := row], k) == if k == row.kind then Defaults(rows, k) - {id} else Defaults(rows, k)
    {
      if row.isDefault { SettingTheFlag(rows, id, row, k); } else { ClearingTheFlag(rows, id, row, k); }
    }
    DefaultIsAlone(rows, id);
    hide Defaults, OneDefaultPerKind, Allowed;
  }

  lemma ClearingTheFlag(rows: Table, id: Id, row: Row, kind: Kind)
    requires id in rows && rows[id].kind == row.kind && !row.isDefault
    ensures Defaults(rows[id := row], kind) == if kind == row.kind then Defaults(rows, kind) - {id}
              else Defaults(rows, kind)
  {}

  lemma DefaultIsAlone(rows: Table, id: Id)
    requires OneDefaultPerKind(rows) && id in rows
    ensures rows[id].isDefault ==> Defaults(rows, rows[id].kind) == {id}
    ensures !rows[id].isDefault ==> id !in Defaults(rows, rows[id].kind)
  {
    if rows[id].isDefault { assert id in Defaults(rows, rows[id].kind); }
  }

  /** Clearing first is what keeps the index quiet: after setting the flag alone the table is in
      order exactly when no other row of the kind is the default. */
  lemma ClearingFirstMatters(rows: Table, id: Id, row: Row)
    requires OneDefaultPerKind(rows) && row.isDefault && (id in rows ==> rows[id].kind == row.kind)
    ensures OneDefaultPerKind(ClearDefault(rows, row.kind, id))
    ensures OneDefaultPerKind(ClearDefault(rows, row.kind, id)[id := row])
    ensures OneDefaultPerKind(rows[id := row]) <==> Defaults(rows, row.kind) <= {id}
  {
    hide Defaults, ClearDefault;
    var bare, cleared := rows[id := row], ClearDefault(rows, row.kind, id);
    var moved := cleared[id := row];
    forall kind ensures Defaults(cleared, kind) <= Defaults(rows, kind) { SettingTheFlag(rows, id, row, kind); }
    forall kind ensures Defaults(moved, kind) == if kind == row.kind then {id} else Defaults(rows, kind) {
      SettingTheFlag(rows, id, row, kind);
    }
    forall kind
      ensures Defaults(bare, kind) == if kind == row.kind then Defaults(rows, kind) + {id} else Defaults(rows, kind)
    {
      SettingTheFlag(rows, id, row, kind);
    }
    assert id in Defaults(bare, row.kind);
  }

  lemma SettingTheFlag(rows: Table, id: Id, row: Row, kind: Kind)
    requires row.isDefault && (id in rows ==> rows[id].kind == row.kind)
    ensures var cleared := ClearDefault(rows, row.kind, id);
            && Defaults(cleared, kind) <= Defaults(rows, kind)
            && Defaults(cleared[id := row], kind) == (if kind == row.kind then {id} else Defaults(rows, kind))
    ensures Defaults(rows[id := row], kind) ==
            if kind == row.kind then Defaults(rows, kind) + {id} else Defaults(rows, kind)
  {}

  // ---- every reachable table ------------------------------------------------------------------------

  datatype Action =
    | CreateAction(newId: Id, create: CreateInput, createEnv: Environment)
    | UpdateAction(id: Id, update: UpdateInput, updateEnv: Environment)
    | DeleteAction(id: Id, referenced: bool, runs: bool)

  /** Ids are random, so a new one is not in the table; an action with a used id does nothing here. */
  function Step(rows: Table, action: Action): Table {
    match action
    case CreateAction(id, input, env) => if id in rows then rows else AfterCreate(rows, id, input, env)
    case UpdateAction(id, input, env) => AfterUpdate(rows, id, input, env)
    case DeleteAction(id, referenced, runs) => AfterDelete(rows, id, referenced, runs)
  }

  function Run(actions: seq<Action>): Table {
    if actions == [] then map[] else Step(Run(actions[..|actions| - 1]), actions[|actions| - 1])
  }

  /** The one row an action is about. */
  function Subject(action: Action): Id {
    match action
    case CreateAction(id, _, _) => id
    case UpdateAction(id, _, _) => id
    case DeleteAction(id, _, _) => id
  }

  /** An action leaves every other row in the table, and takes at most the default flag from it,
      which it does only to give it to the row it is about. */
  lemma OthersKeepAllButTheFlag(rows: Table, action: Action, other: Id)
    requires other in rows && other != Subject(action)
    ensures var after := Step(rows, action);
            && other in after
            && (after[other] == rows[other] || after[other] == rows[other].(isDefault := false))
            && (after[other] != rows[other] ==>
                  Subject(action) in after && after[Subject(action)].isDefault
                  && after[Subject(action)].kind == rows[other].kind)
  {}

  lemma StepKeepsTable(rows: Table, action: Action)
    requires TableOk(rows)
    ensures TableOk(Step(rows, action))
  {
    var after := Step(rows, action);
    match action
    case CreateAction(id, input, env) =>
      if id !in rows {
        forall kind ensures Defaults(after, kind) <= Defaults(rows, kind) || Defaults(after, kind) <= {id} {
          CreateMovesDefault(rows, id, input, env, kind);
        }
      }
    case UpdateAction(id, input, env) =>
      if after != rows && Updated(rows[id], input).isDefault {
        ClearingFirstMatters(rows, id, Updated(rows[id], input));
      } else {
        forall kind ensures Defaults(after, kind) <= Defaults(rows, kind) {}
      }
    case DeleteAction(id, referenced, runs) =>
      forall kind ensures Defaults(after, kind) <= Defaults(rows, kind) {}
  }

  /** At most one default per kind, and defaults of source kinds only, after any creates, updates
      and deletes, rolled back or not. */
  lemma {:induction false} AtMostOneDefault(actions: seq<Action>)
    ensures TableOk(Run(actions))
    ensures forall kind :: |Defaults(Run(actions), kind)| <= if kind in SOURCE_KINDS then 1 else 0
  {
    if actions != [] {
      AtMostOneDefault(actions[..|actions| - 1]);
      StepKeepsTable(Run(actions[..|actions| - 1]), actions[|actions| - 1]);
    }
    forall kind ensures |Defaults(Run(actions), kind)| <= if kind in SOURCE_KINDS then 1 else 0 {
      FewDefaults(Run(actions), kind);
    }
  }

  lemma FewDefaults(rows: Table, kind: Kind)
    requires TableOk(rows)
    ensures |Defaults(rows, kind)| <= if kind in SOURCE_KINDS then 1 else 0
  {
    var defaults := Defaults(rows, kind);
    if defaults != {} {
      var k :| k in defaults;
      assert kind in SOURCE_KINDS;
      assert defaults == {k};
    }
  }
}
