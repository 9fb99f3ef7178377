/** The relational store the handlers talk to, reduced to what they use: one
    table per kind keyed by primary key, an auto-increment counter per table,
    and the way an id string from a URL becomes a query condition. */
module Storage {
  import opened Wrappers
  import opened GoText
  import opened Models

  /** A content table: its live rows by primary key and the next key to hand
      out. Soft-deleted rows are simply absent. */
  datatype Table = Table(rows: map<nat, Record>, next: nat)

  datatype UserTable = UserTable(rows: map<nat, User>, next: nat)

  /** Every row sits under its own key, is of the table's kind, and its key was
      handed out already. */
  ghost predicate TableOk(t: Table, k: Kind)
  {
    forall id :: id in t.rows ==> t.rows[id].KindOf() == k && t.rows[id].Id() == id && id < t.next
  }

  ghost predicate UsersOk(u: UserTable)
  {
    && UniqueEmails(u.rows)
    && forall id :: id in u.rows ==> u.rows[id].id == id && id < u.next
  }

  /** The five content tables. */
  datatype Tables = Tables(websites: Table, music: Table, contributions: Table, skills: Table,
                           education: Table)
  {
    function Of(k: Kind): Table
    {
      match k
      case WebsiteKind => websites
      case MusicKind => music
      case ContributionKind => contributions
      case SkillKind => skills
      case EducationKind => education
    }

    function With(k: Kind, t: Table): (r: Tables)
      ensures r.Of(k) == t
      ensures forall k' :: k' != k ==> r.Of(k') == Of(k')
    {
      match k
      case WebsiteKind => this.(websites := t)
      case MusicKind => this.(music := t)
      case ContributionKind => this.(contributions := t)
      case SkillKind => this.(skills := t)
      case EducationKind => this.(education := t)
    }
  }

  ghost predicate TablesOk(db: Tables)
  {
    forall k :: TableOk(db.Of(k), k)
  }

  /** How the storage library reads an id string passed as a query condition:
      a string strconv.Atoi accepts selects by primary key, the empty string
      adds no condition at all, and anything else is used as raw SQL. */
  datatype Cond = NoCond | ByKey(key: int) | RawSql(sql: string)

  function Condition(id: string): (c: Cond)
    ensures c == NoCond <==> id == ""
    ensures c.ByKey? <==> Atoi(id).Some?
    ensures c.ByKey? ==> c.key == Atoi(id).value
  {
    match Atoi(id)
    case Some(n) => ByKey(n)
    case None => if id == "" then NoCond else RawSql(id)
  }

  /** Whether the row under key id satisfies the condition. */
  predicate Matches(c: Cond, id: nat)
  {
    match c
    case NoCond => true
    case ByKey(n) => id == n
    case RawSql(_) => false
  }

  /** The lowest member of keys in [from, bound), if any. */
  function LowestFrom(keys: set<nat>, from: nat, bound: nat): (r: Option<nat>)
    ensures r.Some? ==> r.value in keys && from <= r.value < bound
    ensures r.Some? ==> forall j :: from <= j < r.value ==> j !in keys
    ensures r.None? ==> forall j :: from <= j < bound ==> j !in keys
    decreases bound - from
  {
    if from >= bound then None
    else if from in keys then Some(from)
    else LowestFrom(keys, from + 1, bound)
  }

  datatype Lookup = Found(key: nat, row: Record) | NotFound | Fault

  /** First(&row, id): the matching row with the lowest primary key, "record
      not found" when none matches, and an error when the engine fails or the
      raw SQL is rejected (raw SQL conditions are always treated as failing). */
  function First(t: Table, c: Cond, fault: bool): (l: Lookup)
    requires forall id :: id in t.rows ==> id < t.next
    ensures l.Fault? <==> fault || c.RawSql?
    ensures l.Found? ==> l.key in t.rows && l.row == t.rows[l.key] && Matches(c, l.key)
    ensures l.Found? ==> forall j :: j in t.rows && Matches(c, j) ==> l.key <= j
    ensures l.NotFound? ==> forall j :: j in t.rows ==> !Matches(c, j)
  {
    if fault then Fault
    else
      match c
      case RawSql(_) => Fault
      case ByKey(n) => if n >= 0 && n in t.rows then Found(n, t.rows[n]) else NotFound
      case NoCond =>
        match LowestFrom(t.rows.Keys, 0, t.next)
        case Some(k) => Found(k, t.rows[k])
        case None => NotFound
  }

  /** db.Create: the row is stored under the next key, which it also takes;
      its kind, owner and columns are those given, and the counter moves on. */
  function Inserted(t: Table, row: Record): (r: Table)
    ensures r.next == t.next + 1
    ensures r.rows.Keys == t.rows.Keys + {t.next}
    ensures forall id :: id in t.rows && id != t.next ==> r.rows[id] == t.rows[id]
    ensures r.rows[t.next].Id() == t.next && r.rows[t.next].KindOf() == row.KindOf()
    ensures r.rows[t.next].Owner() == row.Owner()
    ensures forall f :: r.rows[t.next].Field(f) == row.Field(f)
  {
    Table(t.rows[t.next := row.WithId(t.next)], t.next + 1)
  }

  /** Inserting a row of the table's kind keeps the table well formed and
      leaves every other row where it was. */
  lemma InsertedOk(t: Table, k: Kind, row: Record)
    requires TableOk(t, k) && row.KindOf() == k
    ensures TableOk(Inserted(t, row), k)
    ensures t.next !in t.rows
    ensures forall id :: id in t.rows ==> Inserted(t, row).rows[id] == t.rows[id]
  {
  }

  /** db.Save of a loaded row: the row replaces the one under its key, every
      other row and the counter stay as they were. */
  function Saved(t: Table, row: Record): (r: Table)
    ensures r.next == t.next
    ensures r.rows.Keys == t.rows.Keys + {row.Id()}
    ensures row.Id() in r.rows && r.rows[row.Id()] == row
    ensures forall id :: id in t.rows && id != row.Id() ==> r.rows[id] == t.rows[id]
  {
    Table(t.rows[row.Id() := row], t.next)
  }

  lemma SavedOk(t: Table, k: Kind, row: Record)
    requires TableOk(t, k) && row.KindOf() == k && row.Id() in t.rows
    ensures TableOk(Saved(t, row), k)
    ensures Saved(t, row).rows.Keys == t.rows.Keys
  {
  }

  /** The key a delete condition names, when it names a possible key. */
  function KeyOf(id: string): (k: Option<nat>)
    ensures k.Some? ==> Atoi(id).Some? && Atoi(id).value == k.value
    ensures Atoi(id).Some? && Atoi(id).value >= 0 ==> k.Some?
  {
    match Atoi(id)
    case Some(n) => if n >= 0 then Some(n) else None
    case None => None
  }

  /** Rows owned by the distinguished account: the Where("user_id = ?") filter
      of the list handlers. */
  function Owned(t: Table): (rows: map<nat, Record>)
    ensures forall id :: id in rows <==> id in t.rows && t.rows[id].Owner() == ANDREW_USER_ID
    ensures forall id :: id in rows ==> rows[id] == t.rows[id]
  {
    map id | id in t.rows && t.rows[id].Owner() == ANDREW_USER_ID :: t.rows[id]
  }
}
