/** The CRUD handlers: their decisions as functions that return a response,
    and the handlers that write to the database as methods of the Store. */
module Handlers {
  import opened Wrappers
  import opened GoText
  import opened Models
  import opened Storage

  /** What a handler writes back. Text is an http.Error message; StoreError
      stands for the storage error text a 500 echoes. */
  datatype Body =
    | NoBody
    | Text(message: string)
    | StoreError
    | One(row: Record)
    | OneUser(user: User)
    | Rows(rows: map<nat, Record>)
    | UserRows(users: map<nat, User>)
    | Token(token: string)
    | Message(message: string)

  /** A response; notify says that a revalidation request is fired after it. */
  datatype Response = Response(status: nat, body: Body, notify: bool)

  function Error(status: nat, message: string): Response
  {
    Response(status, Text(message), false)
  }

  /** The path of an item route. */
  function ItemPath(k: Kind, id: string): string
  {
    "/" + KindName(k) + "/" + id
  }

  /** Where an item path leads: rejected with a response, or to a stored row. */
  datatype Resolution = Rejected(response: Response) | Located(kind: Kind, key: nat, row: Record)

  /** The part GetResourceById and UpdateResource share: split the path,
      switch on the resource type, and load the row by the id segment. */
  function Resolve(db: Tables, path: string, fault: bool): (res: Resolution)
    requires TablesOk(db)
    ensures |Split(path, '/')| != 3 ==> res == Rejected(Error(400, "Invalid URL"))
    ensures res.Rejected? ==> !res.response.notify && res.response.status in {400, 404, 500}
    ensures res.Located? ==>
      && |Split(path, '/')| == 3 && ParseKind(Split(path, '/')[1]) == Some(res.kind)
      && res.key in db.Of(res.kind).rows
      && res.row == db.Of(res.kind).rows[res.key]
      && res.row.KindOf() == res.kind && res.row.Id() == res.key
  {
    var parts := Split(path, '/');
    if |parts| != 3 then Rejected(Error(400, "Invalid URL"))
    else
      match ParseKind(parts[1])
      case None => Rejected(Error(400, "Invalid resource type"))
      case Some(k) =>
        match First(db.Of(k), Condition(parts[2]), fault)
        case NotFound => Rejected(Error(404, "Resource not found"))
        case Fault => Rejected(Response(500, StoreError, false))
        case Found(key, row) => Located(k, key, row)
  }

  /** A path that is not three segments, or whose resource type is not one of
      the five kinds, is answered with 400 whatever the store holds. */
  lemma ResolveRejectsBeforeLookup(db1: Tables, db2: Tables, path: string, f1: bool, f2: bool)
    requires TablesOk(db1) && TablesOk(db2)
    requires |Split(path, '/')| != 3 || ParseKind(Split(path, '/')[1]).None?
    ensures Resolve(db1, path, f1) == Resolve(db2, path, f2)
    ensures Resolve(db1, path, f1).Rejected? && Resolve(db1, path, f1).response.status == 400
  {
  }

  lemma {:induction false} NoSlashInItoa(n: int)
    ensures '/' !in Itoa(n)
  {
    var s := Itoa(n);
    var d := NatToDigits(if n < 0 then -n else n);
    assert forall i :: 0 <= i < |d| ==> d[i] != '/' by {
      forall i | 0 <= i < |d| ensures d[i] != '/' {
        assert IsDigit(d[i]);
      }
    }
    if n < 0 {
      assert s == "-" + d;
      assert forall i :: 0 <= i < |s| ==> s[i] != '/' by {
        forall i | 0 <= i < |s| ensures s[i] != '/' {
          if i > 0 { assert s[i] == d[i - 1]; }
        }
      }
    }
  }

  /** An item path splits into the empty root, the kind and the id. */
  lemma ItemPathSplits(k: Kind, id: string)
    requires '/' !in id
    ensures Split(ItemPath(k, id), '/') == ["", KindName(k), id]
  {
    var parts := ["", KindName(k), id];
    assert forall i :: 0 <= i < |parts| ==> '/' !in parts[i];
    SplitOfJoin(parts, '/');
    assert parts[1..] == [KindName(k), id] && [KindName(k), id][1..] == [id];
    assert Join([KindName(k), id], '/') == KindName(k) + "/" + id;
    assert Join(parts, '/') == "" + "/" + (KindName(k) + "/" + id);
    assert ItemPath(k, id) == "" + "/" + (KindName(k) + "/" + id);
  }

  /** Loading /<kind>/<n>: the row under key n, 404 when there is none, 500
      when the engine fails. */
  lemma ResolveById(db: Tables, k: Kind, n: int, fault: bool)
    requires TablesOk(db)
    ensures Resolve(db, ItemPath(k, Itoa(n)), fault) ==
      if fault then Rejected(Response(500, StoreError, false))
      else if n >= 0 && n in db.Of(k).rows then Located(k, n, db.Of(k).rows[n])
      else Rejected(Error(404, "Resource not found"))
  {
    NoSlashInItoa(n);
    ItemPathSplits(k, Itoa(n));
    AtoiOfItoa(n);
    ParseKindExact(KindName(k), k);
  }

  /** Loading /<kind>/ (an empty id): no condition, so the row with the lowest
      key, and 404 only for an empty table. */
  lemma ResolveEmptyId(db: Tables, k: Kind)
    requires TablesOk(db)
    ensures var res := Resolve(db, ItemPath(k, ""), false);
      && (db.Of(k).rows == map[] <==> res == Rejected(Error(404, "Resource not found")))
      && (db.Of(k).rows != map[] ==> res.Located? && res.kind == k)
      && (res.Located? ==> forall j :: j in db.Of(k).rows ==> res.key <= j)
  {
    ItemPathSplits(k, "");
    ParseKindExact(KindName(k), k);
    var res := Resolve(db, ItemPath(k, ""), false);
    if db.Of(k).rows != map[] {
      var j :| j in db.Of(k).rows;
      assert Matches(NoCond, j);
    }
  }

  /** GET /<kind>/<id> (GetResourceById). It never notifies, and on success the
      body is exactly a stored row. */
  function GetResourceById(db: Tables, path: string, fault: bool): (r: Response)
    requires TablesOk(db)
    ensures |Split(path, '/')| != 3 ==> r == Error(400, "Invalid URL")
    ensures !r.notify
    ensures r.status == 200 ==>
      && r.body.One?
      && |Split(path, '/')| == 3 && ParseKind(Split(path, '/')[1]) == Some(r.body.row.KindOf())
      && r.body.row.Id() in db.Of(r.body.row.KindOf()).rows
      && db.Of(r.body.row.KindOf()).rows[r.body.row.Id()] == r.body.row
    ensures r.status != 200 ==> r.status in {400, 404, 500}
  {
    match Resolve(db, path, fault)
    case Rejected(response) => response
    case Located(k, _, row) => Response(200, One(row), false)
  }

  /** Getting /<kind>/<n> from a healthy store: the stored row or 404. */
  lemma GetById(db: Tables, k: Kind, n: nat)
    requires TablesOk(db)
    ensures GetResourceById(db, ItemPath(k, Itoa(n)), false) ==
      if n in db.Of(k).rows then Response(200, One(db.Of(k).rows[n]), false)
      else Error(404, "Resource not found")
  {
    ResolveById(db, k, n, false);
  }

  /** What UpdateResource does after loading: answer now, or save a row. */
  datatype UpdateStep = Reply(response: Response) | Save(kind: Kind, row: Record)

  /** PUT /<kind>/<id> up to the save: load the row, then decode the body on
      top of it. */
  function PlanUpdate(db: Tables, path: string, p: Payload, fault: bool): (s: UpdateStep)
    requires TablesOk(db)
    ensures |Split(path, '/')| != 3 ==> s == Reply(Error(400, "Invalid URL"))
    ensures s.Reply? ==> !s.response.notify && s.response.status in {400, 404, 500}
    ensures s.Save? ==>
      && |Split(path, '/')| == 3 && ParseKind(Split(path, '/')[1]) == Some(s.kind)
      && s.row.KindOf() == s.kind && s.row.Id() in db.Of(s.kind).rows
  {
    match Resolve(db, path, fault)
    case Rejected(response) => Reply(response)
    case Located(k, _, row) => Save(k, Overlay(row, p))
  }

  /** Updating /<kind>/<n>: 404 and no save when key n is missing; otherwise the
      save of the stored row with the body laid over it. */
  lemma UpdateById(db: Tables, k: Kind, n: nat, p: Payload)
    requires TablesOk(db)
    ensures PlanUpdate(db, ItemPath(k, Itoa(n)), p, false) ==
      if n in db.Of(k).rows then Save(k, Overlay(db.Of(k).rows[n], p))
      else Reply(Error(404, "Resource not found"))
  {
    ResolveById(db, k, n, false);
  }

  /** An update saves the loaded row with the fields the body carries replaced
      and all others kept; the owner changes only to an in-range `user_id`
      number of the body. */
  lemma UpdateMerges(db: Tables, k: Kind, n: nat, p: Payload, key: string)
    requires TablesOk(db) && n in db.Of(k).rows
    ensures var s := PlanUpdate(db, ItemPath(k, Itoa(n)), p, false);
      var stored := db.Of(k).rows[n];
      && s.Save? && s.kind == k && s.row.Id() == n
      && s.row.Field(key) ==
           (if key in TextKeys(k) && key in p && p[key].JStr? then Some(p[key].s) else stored.Field(key))
      && s.row.Owner() == UintOr(p, "user_id", stored.Owner())
  {
    UpdateById(db, k, n, p);
    var stored := db.Of(k).rows[n];
    OverlayFields(stored, p, key);
    FieldDomain(stored, key);
    OverlayOwner(stored, p);
  }

  /** The row a Create handler stores: the body decoded onto a zero row, with
      the owner forced to the distinguished account before the insert, except
      for MusicWork, which keeps the body's user_id. */
  function NewRow(k: Kind, p: Payload): (row: Record)
    ensures row.KindOf() == k && row.Id() == 0
  {
    var decoded := Overlay(Zero(k), p);
    if k == MusicKind then decoded else decoded.WithOwner(ANDREW_USER_ID)
  }

  /** What a Create handler answers once the insert has run, whether or not
      it succeeded: 200 and the row as inserted, except that a music work is
      shown with the distinguished owner. Only a website create notifies. */
  function CreateReply(k: Kind, stored: Record): (r: Response)
    ensures r.status == 200 && r.body.One?
    ensures r.notify <==> k == WebsiteKind
    ensures r.body.row.Id() == stored.Id() && r.body.row.KindOf() == stored.KindOf()
    ensures forall f :: r.body.row.Field(f) == stored.Field(f)
    ensures k == MusicKind ==> r.body.row.Owner() == ANDREW_USER_ID
    ensures k != MusicKind ==> r.body.row == stored
  {
    Response(200, One(if k == MusicKind then stored.WithOwner(ANDREW_USER_ID) else stored),
             k == WebsiteKind)
  }

  /** Website, Contribution, Skill and Education rows are stored under the
      distinguished owner whatever user_id the body carries. */
  lemma NewRowOwner(k: Kind, p: Payload)
    requires k != MusicKind
    ensures NewRow(k, p).Owner() == ANDREW_USER_ID
  {
  }

  /** A MusicWork row is stored with the body's own user_id (0 when it has
      none), although the response shows the distinguished owner. */
  lemma MusicKeepsBodyOwner(p: Payload, id: nat)
    ensures NewRow(MusicKind, p).Owner() == UintOr(p, "user_id", 0)
    ensures CreateReply(MusicKind, NewRow(MusicKind, p).WithId(id)).body.row.Owner() == ANDREW_USER_ID
  {
    OverlayOwner(Zero(MusicKind), p);
  }

  /** Consequence: a music work created from a body whose user_id is absent
      or other than 1 is not listed after the create, since the list shows
      only the distinguished owner's rows. */
  lemma MusicWithoutOwnerIsUnlisted(t: Table, p: Payload)
    requires UintOr(p, "user_id", 0) != ANDREW_USER_ID
    ensures t.next !in Owned(Inserted(t, NewRow(MusicKind, p))).Keys
  {
    MusicKeepsBodyOwner(p, t.next);
  }

  /** Every content text column of a created row is the body's string, or empty
      when the body has none; no format is imposed (education dates included). */
  lemma NewRowFields(k: Kind, p: Payload, key: string)
    requires key in TextKeys(k)
    ensures NewRow(k, p).Field(key) == Some(TextOr(p, key, ""))
  {
    OverlayFields(Zero(k), p, key);
  }

  /** Content created from any body shows up in its kind's list under its new
      key, and nothing else in the list changes. This holds because the owner
      is forced; MusicWork, whose owner is not forced, is the exception. */
  lemma {:induction false} CreatedIsListed(t: Table, k: Kind, p: Payload)
    requires k != MusicKind
    ensures Owned(Inserted(t, NewRow(k, p))) == Owned(t)[t.next := NewRow(k, p).WithId(t.next)]
  {
    var after := Inserted(t, NewRow(k, p));
    NewRowOwner(k, p);
    assert after.rows[t.next] == NewRow(k, p).WithId(t.next);
  }

  datatype Deletion = Deletion(response: Response, table: Table)

  /** DeleteSkill on the skills table for the `id` query parameter. */
  function DeleteSkillStep(t: Table, id: string, fault: bool): (d: Deletion)
    ensures id == "" ==> d == Deletion(Error(400, "Skill ID is required"), t)
    ensures d.response.status == 200 ==>
      KeyOf(id).Some? && KeyOf(id).value in t.rows && d.table == Table(t.rows - {KeyOf(id).value}, t.next)
    ensures d.response.status != 200 ==> d.table == t
    ensures d.response.status == 404 <==>
      id != "" && !fault && Atoi(id).Some? && (KeyOf(id).None? || KeyOf(id).value !in t.rows)
    ensures !d.response.notify
  {
    if id == "" then Deletion(Error(400, "Skill ID is required"), t)
    else if fault then Deletion(Error(500, "Failed to delete skill"), t)
    else
      // A non-empty id is a key condition or raw SQL; raw SQL fails.
      match Atoi(id)
      case Some(n) =>
        if n >= 0 && n in t.rows
        then Deletion(Response(200, Message("Skill deleted successfully"), false),
                      Table(t.rows - {n}, t.next))
        else Deletion(Error(404, "Skill not found"), t)
      case None => Deletion(Error(500, "Failed to delete skill"), t)
  }

  /** Deleting skill n removes exactly row n, or answers 404 when there is no
      such row, even though the delete itself reports no error. */
  lemma DeleteSkillById(t: Table, n: nat)
    ensures DeleteSkillStep(t, Itoa(n), false) ==
      if n in t.rows then Deletion(Response(200, Message("Skill deleted successfully"), false),
                                   Table(t.rows - {n}, t.next))
      else Deletion(Error(404, "Skill not found"), t)
  {
    AtoiOfItoa(n);
  }

  /** db.Where("email = ?").First(&user): the lowest-keyed user with that
      email; a failing engine reads as no user. */
  function FindByEmail(users: UserTable, email: string, fault: bool): (u: Option<User>)
    requires forall id :: id in users.rows ==> id < users.next
    ensures u.Some? ==> u.value in users.rows.Values && u.value.email == email
    ensures u.Some? ==>
      exists j :: j in users.rows && users.rows[j] == u.value &&
        forall id :: id in users.rows && users.rows[id].email == email ==> j <= id
    ensures u.None? ==> fault || forall id :: id in users.rows ==> users.rows[id].email != email
  {
    if fault then None
    else
      var holders := set id | id in users.rows && users.rows[id].email == email;
      match LowestFrom(holders, 0, users.next)
      case Some(id) =>
        assert forall i :: i in users.rows && users.rows[i].email == email ==> i in holders;
        Some(users.rows[id])
      case None =>
        assert forall id :: id in users.rows && users.rows[id].email == email ==> id in holders;
        None
  }

  /** Login. The password check (bcrypt) and the token issue (an HMAC-signed
      JWT for the user id) are parameters: passwordMatches(hash, plain), and
      issue(id), which is None when signing fails. */
  function Login(verb: string, p: Payload, users: UserTable, fault: bool,
                 passwordMatches: (string, string) -> bool,
                 issue: nat -> Option<string>): (r: Response)
    requires forall id :: id in users.rows ==> id < users.next
    ensures verb == "OPTIONS" ==> r == Response(200, NoBody, false)
    ensures r.status == 401 ==> r == Error(401, "Invalid credentials")
    ensures r.status == 200 && verb != "OPTIONS" ==>
      r.body.Token? &&
      exists u :: u in users.rows.Values && u.email == TextOr(p, "email", "") &&
        passwordMatches(u.password, TextOr(p, "password", "")) && issue(u.id) == Some(r.body.token)
    ensures r.status in {200, 401, 500} && !r.notify
  {
    if verb == "OPTIONS" then Response(200, NoBody, false)
    else
      var email := TextOr(p, "email", "");
      var password := TextOr(p, "password", "");
      match FindByEmail(users, email, fault)
      case None => Error(401, "Invalid credentials")
      case Some(u) =>
        if !passwordMatches(u.password, password) then Error(401, "Invalid credentials")
        else
          match issue(u.id)
          case None => Error(500, "Error generating token")
          case Some(token) => Response(200, Token(token), false)
  }

  /** The right email and password, on a store whose emails are unique and a
      signer that succeeds, get 200 and the token issued for that user. */
  lemma LoginSucceeds(verb: string, p: Payload, users: UserTable,
                      passwordMatches: (string, string) -> bool,
                      issue: nat -> Option<string>, id: nat, token: string)
    requires verb != "OPTIONS" && UsersOk(users)
    requires id in users.rows && users.rows[id].email == TextOr(p, "email", "")
    requires passwordMatches(users.rows[id].password, TextOr(p, "password", ""))
    requires issue(id) == Some(token)
    ensures Login(verb, p, users, false, passwordMatches, issue) == Response(200, Token(token), false)
  {
    var u := FindByEmail(users, TextOr(p, "email", ""), false);
    var j :| j in users.rows && users.rows[j] == u.value;
    assert j == id;
  }

  /** An unknown email and a wrong password get the same answer. */
  lemma LoginFailuresAlike(verb: string, p: Payload, unknown: UserTable, known: UserTable,
                           passwordMatches: (string, string) -> bool,
                           issue: nat -> Option<string>)
    requires verb != "OPTIONS"
    requires forall id :: id in unknown.rows ==> id < unknown.next
    requires forall id :: id in unknown.rows ==> unknown.rows[id].email != TextOr(p, "email", "")
    requires UsersOk(known)
    requires forall id :: id in known.rows && known.rows[id].email == TextOr(p, "email", "") ==>
      !passwordMatches(known.rows[id].password, TextOr(p, "password", ""))
    ensures Login(verb, p, unknown, false, passwordMatches, issue) ==
            Login(verb, p, known, false, passwordMatches, issue)
    ensures Login(verb, p, known, false, passwordMatches, issue) == Error(401, "Invalid credentials")
  {
    var u := FindByEmail(known, TextOr(p, "email", ""), false);
    if u.Some? {
      var id :| id in known.rows && known.rows[id] == u.value;
    }
  }

  /** The database handle: one table per content kind plus the users table. */
  class Store {
    var users: UserTable
    var websites: Table
    var music: Table
    var contributions: Table
    var skills: Table
    var education: Table

    function Content(): Tables
      reads this
    {
      Tables(websites, music, contributions, skills, education)
    }

    ghost predicate Valid()
      reads this
    {
      UsersOk(users) && TablesOk(Content())
    }

    /** A fresh, empty database (the first key handed out is 1). */
    constructor ()
      ensures Valid()
      ensures users == UserTable(map[], 1)
      ensures forall k :: Content().Of(k) == Table(map[], 1)
    {
      users := UserTable(map[], 1);
      websites, music, contributions := Table(map[], 1), Table(map[], 1), Table(map[], 1);
      skills, education := Table(map[], 1), Table(map[], 1);
    }

    method SetTable(k: Kind, t: Table)
      modifies this
      ensures Content() == old(Content()).With(k, t) && users == old(users)
    {
      match k
      case WebsiteKind => websites := t;
      case MusicKind => music := t;
      case ContributionKind => contributions := t;
      case SkillKind => skills := t;
      case EducationKind => education := t;
    }

    /** GetUsers: every user of any owner, unfiltered; the list inherits the
        unique email index. */
    function GetUsers(): (r: Response)
      reads this
      ensures r.status == 200 && r.body.UserRows? && !r.notify
      ensures forall id :: id in r.body.users <==> id in users.rows
      ensures forall id :: id in r.body.users ==> r.body.users[id] == users.rows[id]
      ensures Valid() ==>
        forall a, b ::
          (a in r.body.users && b in r.body.users && r.body.users[a].email == r.body.users[b].email)
          ==> a == b
    {
      Response(200, UserRows(users.rows), false)
    }

    /** GetContributions, GetMusicWorks, GetSkills, GetEducation: the rows of the
        distinguished owner. */
    function List(k: Kind): (r: Response)
      reads this
      ensures r.status == 200 && r.body.Rows? && !r.notify
      ensures forall id :: id in r.body.rows <==>
        id in Content().Of(k).rows && Content().Of(k).rows[id].Owner() == ANDREW_USER_ID
      ensures forall id :: id in r.body.rows ==> r.body.rows[id] == Content().Of(k).rows[id]
    {
      Response(200, Rows(Owned(Content().Of(k))), false)
    }

    /** CreateWebsite, CreateMusicWork, CreateContribution, CreateSkill and
        CreateEducation: decode the body, insert, answer with the row. The
        source ignores an insert error (fault): the table is then unchanged
        and the answer is the same, with key 0. */
    method Create(k: Kind, p: Payload, fault: bool) returns (r: Response)
      requires Valid()
      modifies this
      ensures Valid() && users == old(users)
      ensures fault ==> Content() == old(Content()) && r == CreateReply(k, NewRow(k, p))
      ensures !fault ==>
        && Content() == old(Content()).With(k, Inserted(old(Content()).Of(k), NewRow(k, p)))
        && r == CreateReply(k, NewRow(k, p).WithId(old(Content()).Of(k).next))
    {
      var row := NewRow(k, p);
      var t := Content().Of(k);
      if fault {
        r := CreateReply(k, row);
      } else {
        InsertedOk(t, k, row);
        SetTable(k, Inserted(t, row));
        r := CreateReply(k, row.WithId(t.next));
      }
    }

    /** CreateUser: insert the decoded user; the unique email index (or any
        other insert error) rejects it, which the source ignores. */
    method CreateUser(p: Payload, fault: bool) returns (r: Response)
      requires Valid()
      modifies this
      ensures Valid() && Content() == old(Content())
      ensures var u := DecodeUser(p);
        var taken := exists id :: id in old(users).rows && old(users).rows[id].email == u.email;
        && (fault || taken ==> users == old(users) && r == Response(200, OneUser(u), false))
        && (!fault && !taken ==>
              && users == UserTable(old(users).rows[old(users).next := u.(id := old(users).next)],
                                    old(users).next + 1)
              && r == Response(200, OneUser(u.(id := old(users).next)), false))
    {
      var u := DecodeUser(p);
      var taken := exists id :: id in users.rows && users.rows[id].email == u.email;
      if fault || taken {
        r := Response(200, OneUser(u), false);
      } else {
        var stored := u.(id := users.next);
        InsertKeepsUniqueEmails(users.rows, users.next, stored);
        users := UserTable(users.rows[users.next := stored], users.next + 1);
        r := Response(200, OneUser(stored), false);
      }
    }

    /** UpdateResource: load, overlay, save. A failing save (saveFault) answers
        500 and leaves the table as it was; a successful one notifies. */
    method UpdateResource(path: string, p: Payload, findFault: bool, saveFault: bool)
      returns (r: Response)
      requires Valid()
      modifies this
      ensures Valid() && users == old(users)
      ensures var s := PlanUpdate(old(Content()), path, p, findFault);
        && (s.Reply? ==> r == s.response && Content() == old(Content()))
        && (s.Save? && saveFault ==>
              r == Response(500, StoreError, false) && Content() == old(Content()))
        && (s.Save? && !saveFault ==>
              && Content() == old(Content()).With(s.kind, Saved(old(Content()).Of(s.kind), s.row))
              && r == Response(200, One(s.row), true))
    {
      var s := PlanUpdate(Content(), path, p, findFault);
      match s
      case Reply(response) =>
        r := response;
      case Save(k, row) =>
        if saveFault {
          r := Response(500, StoreError, false);
        } else {
          SavedOk(Content().Of(k), k, row);
          SetTable(k, Saved(Content().Of(k), row));
          r := Response(200, One(row), true);
        }
    }

    /** DeleteSkill for the `id` query parameter ("" when absent). */
    method DeleteSkill(id: string, fault: bool) returns (r: Response)
      requires Valid()
      modifies this
      ensures Valid() && users == old(users)
      ensures var d := DeleteSkillStep(old(skills), id, fault);
        r == d.response && Content() == old(Content()).With(SkillKind, d.table)
    {
      var d := DeleteSkillStep(skills, id, fault);
      assert TableOk(Content().Of(SkillKind), SkillKind);
      assert TableOk(d.table, SkillKind);
      SetTable(SkillKind, d.table);
      r := d.response;
    }
  }
}
