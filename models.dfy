/** The database records of the portfolio backend, the resource kinds that
    the item routes dispatch on, and how a JSON request body is decoded onto
    a record. */
module Models {
  import opened Wrappers

  /** The one account that owns every piece of content. */
  const ANDREW_USER_ID: nat := 1

  /** The JSON decoder's range for an unsigned 64-bit field (Go's uint). */
  const UINT_LIMIT: int := 0x1_0000_0000_0000_0000

  /** Every record starts with the embedded primary key `id`. Timestamps and
      the soft-delete marker of that embedding are not modelled. */
  datatype User = User(id: nat, name: string, email: string, password: string)

  datatype Website = Website(id: nat, userId: nat, title: string, description: string,
                             url: string, content: string)

  datatype MusicWork = MusicWork(id: nat, userId: nat, title: string, description: string,
                                 url: string, content: string)

  datatype Contribution = Contribution(id: nat, userId: nat, title: string, description: string,
                                       url: string, content: string)

  datatype Skill = Skill(id: nat, userId: nat, name: string, description: string)

  /** Start and end dates are free text: no format and no ordering. */
  datatype Education = Education(id: nat, userId: nat, institution: string, degree: string,
                                 fieldOfStudy: string, startDate: string, endDate: string,
                                 description: string)

  /** The five owned content kinds; User is not one of them. */
  datatype Kind = WebsiteKind | MusicKind | ContributionKind | SkillKind | EducationKind

  /** The first path segment that names each kind. */
  function KindName(k: Kind): string
  {
    match k
    case WebsiteKind => "websites"
    case MusicKind => "music"
    case ContributionKind => "contributions"
    case SkillKind => "skills"
    case EducationKind => "education"
  }

  /** The switch on the resource type segment of an item path. */
  function ParseKind(s: string): (k: Option<Kind>)
    ensures k.Some? ==> KindName(k.value) == s
  {
    if s == "websites" then Some(WebsiteKind)
    else if s == "music" then Some(MusicKind)
    else if s == "contributions" then Some(ContributionKind)
    else if s == "skills" then Some(SkillKind)
    else if s == "education" then Some(EducationKind)
    else None
  }

  /** A segment is accepted exactly when it is the name of some kind. */
  lemma ParseKindExact(s: string, k: Kind)
    ensures ParseKind(s) == Some(k) <==> s == KindName(k)
  {
  }

  /** One stored row of a content kind. */
  datatype Record =
    | WebsiteRow(website: Website)
    | MusicRow(music: MusicWork)
    | ContributionRow(contribution: Contribution)
    | SkillRow(skill: Skill)
    | EducationRow(education: Education)
  {
    function KindOf(): Kind
    {
      match this
      case WebsiteRow(_) => WebsiteKind
      case MusicRow(_) => MusicKind
      case ContributionRow(_) => ContributionKind
      case SkillRow(_) => SkillKind
      case EducationRow(_) => EducationKind
    }

    function Id(): nat
    {
      match this
      case WebsiteRow(w) => w.id
      case MusicRow(m) => m.id
      case ContributionRow(c) => c.id
      case SkillRow(s) => s.id
      case EducationRow(e) => e.id
    }

    /** The `user_id` owner column every content kind carries. */
    function Owner(): nat
    {
      match this
      case WebsiteRow(w) => w.userId
      case MusicRow(m) => m.userId
      case ContributionRow(c) => c.userId
      case SkillRow(s) => s.userId
      case EducationRow(e) => e.userId
    }

    function WithId(id: nat): (r: Record)
      ensures r.Id() == id && r.KindOf() == KindOf() && r.Owner() == Owner()
      ensures forall f :: r.Field(f) == Field(f)
    {
      match this
      case WebsiteRow(w) => WebsiteRow(w.(id := id))
      case MusicRow(m) => MusicRow(m.(id := id))
      case ContributionRow(c) => ContributionRow(c.(id := id))
      case SkillRow(s) => SkillRow(s.(id := id))
      case EducationRow(e) => EducationRow(e.(id := id))
    }

    function WithOwner(owner: nat): (r: Record)
      ensures r.Owner() == owner && r.KindOf() == KindOf() && r.Id() == Id()
      ensures forall f :: r.Field(f) == Field(f)
    {
      match this
      case WebsiteRow(w) => WebsiteRow(w.(userId := owner))
      case MusicRow(m) => MusicRow(m.(userId := owner))
      case ContributionRow(c) => ContributionRow(c.(userId := owner))
      case SkillRow(s) => SkillRow(s.(userId := owner))
      case EducationRow(e) => EducationRow(e.(userId := owner))
    }

    /** The text column behind a JSON key, for the keys of this record's kind. */
    function Field(key: string): Option<string>
    {
      match this
      case WebsiteRow(w) => ArticleField(key, w.title, w.description, w.url, w.content)
      case MusicRow(m) => ArticleField(key, m.title, m.description, m.url, m.content)
      case ContributionRow(c) => ArticleField(key, c.title, c.description, c.url, c.content)
      case SkillRow(s) =>
        if key == "name" then Some(s.name)
        else if key == "description" then Some(s.description)
        else None
      case EducationRow(e) =>
        if key == "institution" then Some(e.institution)
        else if key == "degree" then Some(e.degree)
        else if key == "field_of_study" then Some(e.fieldOfStudy)
        else if key == "start_date" then Some(e.startDate)
        else if key == "end_date" then Some(e.endDate)
        else if key == "description" then Some(e.description)
        else None
    }
  }

  function ArticleField(key: string, title: string, description: string, url: string,
                        content: string): Option<string>
  {
    if key == "title" then Some(title)
    else if key == "description" then Some(description)
    else if key == "url" then Some(url)
    else if key == "content" then Some(content)
    else None
  }

  /** The JSON text keys of each kind. */
  function TextKeys(k: Kind): set<string>
  {
    match k
    case WebsiteKind => {"title", "description", "url", "content"}
    case MusicKind => {"title", "description", "url", "content"}
    case ContributionKind => {"title", "description", "url", "content"}
    case SkillKind => {"name", "description"}
    case EducationKind => {"institution", "degree", "field_of_study", "start_date", "end_date",
                           "description"}
  }

  /** Exactly the keys of TextKeys name a column of the row. */
  lemma FieldDomain(r: Record, key: string)
    ensures r.Field(key).Some? <==> key in TextKeys(r.KindOf())
  {
  }

  /** A decoded JSON value; a body is an object of them. A body that fails to
      decode is the empty object. */
  datatype Json = JStr(s: string) | JNum(n: int)

  type Payload = map<string, Json>

  /** json.Decode onto a text field: a string value replaces it, an absent key
      or a value of the wrong type leaves it as it was. */
  function TextOr(p: Payload, key: string, current: string): string
  {
    if key in p && p[key].JStr? then p[key].s else current
  }

  /** json.Decode onto an unsigned field: only an in-range number replaces it. */
  function UintOr(p: Payload, key: string, current: nat): nat
  {
    if key in p && p[key].JNum? && 0 <= p[key].n < UINT_LIMIT then p[key].n else current
  }

  /** The payload decoded on top of a row of its kind (the primary key is not
      decoded). */
  function Overlay(r: Record, p: Payload): (o: Record)
    ensures o.KindOf() == r.KindOf() && o.Id() == r.Id()
  {
    var owner := UintOr(p, "user_id", r.Owner());
    match r
    case WebsiteRow(w) =>
      WebsiteRow(Website(w.id, owner, TextOr(p, "title", w.title),
                         TextOr(p, "description", w.description), TextOr(p, "url", w.url),
                         TextOr(p, "content", w.content)))
    case MusicRow(m) =>
      MusicRow(MusicWork(m.id, owner, TextOr(p, "title", m.title),
                         TextOr(p, "description", m.description), TextOr(p, "url", m.url),
                         TextOr(p, "content", m.content)))
    case ContributionRow(c) =>
      ContributionRow(Contribution(c.id, owner, TextOr(p, "title", c.title),
                                   TextOr(p, "description", c.description),
                                   TextOr(p, "url", c.url), TextOr(p, "content", c.content)))
    case SkillRow(s) =>
      SkillRow(Skill(s.id, owner, TextOr(p, "name", s.name),
                     TextOr(p, "description", s.description)))
    case EducationRow(e) =>
      EducationRow(Education(e.id, owner, TextOr(p, "institution", e.institution),
                             TextOr(p, "degree", e.degree),
                             TextOr(p, "field_of_study", e.fieldOfStudy),
                             TextOr(p, "start_date", e.startDate),
                             TextOr(p, "end_date", e.endDate),
                             TextOr(p, "description", e.description)))
  }

  /** Decoding onto a row: a text column whose key carries a string takes that
      string, every other column keeps its value. */
  lemma OverlayFields(r: Record, p: Payload, key: string)
    ensures Overlay(r, p).Field(key) ==
      if r.Field(key).Some? && key in p && p[key].JStr? then Some(p[key].s) else r.Field(key)
  {
  }

  /** Decoding onto a row keeps the owner unless the body carries an in-range
      `user_id` number, which then replaces it: an absent key, a string, a
      negative number and one of 2^64 or more all leave it as it was. */
  lemma OverlayOwner(r: Record, p: Payload)
    ensures "user_id" !in p ==> Overlay(r, p).Owner() == r.Owner()
    ensures "user_id" in p && !(p["user_id"].JNum? && 0 <= p["user_id"].n < UINT_LIMIT) ==>
      Overlay(r, p).Owner() == r.Owner()
    ensures "user_id" in p && p["user_id"].JNum? && 0 <= p["user_id"].n < UINT_LIMIT ==>
      Overlay(r, p).Owner() == p["user_id"].n
  {
  }

  /** The empty body changes nothing. */
  lemma OverlayEmpty(r: Record)
    ensures Overlay(r, map[]) == r
  {
  }

  /** A zero-valued row of a kind: what `var x T` gives before decoding. */
  function Zero(k: Kind): (r: Record)
    ensures r.KindOf() == k && r.Id() == 0 && r.Owner() == 0
    ensures forall key :: key in TextKeys(k) ==> r.Field(key) == Some("")
  {
    match k
    case WebsiteKind => WebsiteRow(Website(0, 0, "", "", "", ""))
    case MusicKind => MusicRow(MusicWork(0, 0, "", "", "", ""))
    case ContributionKind => ContributionRow(Contribution(0, 0, "", "", "", ""))
    case SkillKind => SkillRow(Skill(0, 0, "", ""))
    case EducationKind => EducationRow(Education(0, 0, "", "", "", "", "", ""))
  }

  /** A User decoded from a body. User has no JSON tags, so its keys are the
      Go field names. */
  function DecodeUser(p: Payload): (u: User)
    ensures u.id == 0
    ensures "Email" in p && p["Email"].JStr? ==> u.email == p["Email"].s
    ensures "Email" !in p ==> u.email == ""
  {
    User(0, TextOr(p, "Name", ""), TextOr(p, "Email", ""), TextOr(p, "Password", ""))
  }

  /** The unique index on User.Email. */
  ghost predicate UniqueEmails(users: map<nat, User>)
  {
    forall a, b :: a in users && b in users && users[a].email == users[b].email ==> a == b
  }

  /** The unique index admits an insert exactly when no other row holds the
      email: adding user u under a key n keeps the emails unique if and only
      if every row under another key has a different email. */
  lemma InsertKeepsUniqueEmails(users: map<nat, User>, n: nat, u: User)
    requires UniqueEmails(users)
    ensures UniqueEmails(users[n := u]) <==>
      forall id :: id in users && id != n ==> users[id].email != u.email
  {
    var after := users[n := u];
    if forall id :: id in users && id != n ==> users[id].email != u.email {
      forall a, b | a in after && b in after && after[a].email == after[b].email
        ensures a == b
      {
        if a != n && b != n {
          assert users[a].email == users[b].email;
        }
      }
    } else {
      var id :| id in users && id != n && users[id].email == u.email;
      assert after[id].email == after[n].email;
    }
  }
}
