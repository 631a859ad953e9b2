/** `POST /api/categories`: create a transaction category with a per-tenant unique name. */
module CategoriesRoute {
  import opened Wrappers
  import opened Ledger

  /** The request body; an absent field is `""`. */
  datatype PostRequest = PostRequest(name: string, description: string, color: string)

  const MissingName := "Category name is required"
  const NameExists := "Category name already exists"

  /** `findFirst({ userId, name })` finds a row. */
  predicate NameTaken(categories: map<Id, Category>, caller: Id, name: string)
  {
    exists k :: k in categories && categories[k].owner == caller && categories[k].name == name
  }

  function Rejection(categories: map<Id, Category>, session: Option<Id>, req: PostRequest): Option<ApiError>
  {
    if session.None? then Some(Unauthorized)
    else if req.name == "" then Some(BadRequest(MissingName))
    else if NameTaken(categories, session.value, req.name) then Some(BadRequest(NameExists))
    else None
  }

  /**
   * A category is created exactly when the caller is signed in, the name is given and no
   * category of the caller has it; other tenants' categories never block the name.
   */
  lemma RejectionSpec(categories: map<Id, Category>, session: Option<Id>, req: PostRequest)
    ensures Rejection(categories, session, req).None? <==>
              && session.Some? && req.name != ""
              && forall k :: k in categories && categories[k].owner == session.value ==> categories[k].name != req.name
    ensures session.Some? && req.name == "" ==> Rejection(categories, session, req) == Some(BadRequest(MissingName))
    ensures session.Some? && req.name != "" && NameTaken(categories, session.value, req.name) ==>
              Rejection(categories, session, req) == Some(BadRequest(NameExists))
  {
  }

  /** The row written by `create`: never a system category, absent description and colour are null. */
  function NewCategory(id: Id, caller: Id, req: PostRequest): (c: Category)
    ensures c.id == id && c.owner == caller && c.name == req.name && !c.isSystem
    ensures c.description.None? <==> req.description == ""
    ensures c.color.None? <==> req.color == ""
  {
    Category(id, caller, req.name, if req.description == "" then None else Some(req.description),
             if req.color == "" then None else Some(req.color), false)
  }

  /** An accepted creation keeps category names unique for every tenant whose names were unique. */
  lemma AcceptedKeepsNamesUnique(categories: map<Id, Category>, caller: Id, req: PostRequest, id: Id, u: Id)
    requires CategoryNamesUnique(categories, u) && id !in categories
    requires Rejection(categories, Some(caller), req).None?
    ensures CategoryNamesUnique(categories[id := NewCategory(id, caller, req)], u)
  {
    var m := categories[id := NewCategory(id, caller, req)];
    forall i, j | i in m && j in m && i != j && m[i].owner == u && m[j].owner == u
      ensures m[i].name != m[j].name
    {
      if i == id {
        assert m[j] == categories[j];
      } else if j == id {
        assert m[i] == categories[i];
      }
    }
  }

  method Post(db: Db, session: Option<Id>, req: PostRequest) returns (r: Result<Category, ApiError>)
    requires db.Valid() && SessionOk(db, session)
    modifies db
    ensures db.Valid()
    ensures r.Err? <==> Rejection(old(db.categories), session, req).Some?
    ensures r.Err? ==> r.error == Rejection(old(db.categories), session, req).value && unchanged(db)
    ensures r.Ok? ==>
              && session.Some?
              && r.value == NewCategory(old(db.nextId), session.value, req)
              && db.categories == old(db.categories)[r.value.id := r.value]
              && db.nextId == old(db.nextId) + 1
              && db.users == old(db.users) && db.accounts == old(db.accounts)
              && db.transactions == old(db.transactions) && db.customers == old(db.customers)
              && db.invoices == old(db.invoices)
  {
    var rejection := Rejection(db.categories, session, req);
    if rejection.Some? {
      return Err(rejection.value);
    }
    var c := NewCategory(db.nextId, session.value, req);
    ghost var s' := db.State().(categories := db.categories[c.id := c], nextId := db.nextId + 1);
    assert db.categories + map[c.id := c] == db.categories[c.id := c];
    AddCategoriesConsistent(db.State(), map[c.id := c], 1);
    db.categories := db.categories[c.id := c];
    db.nextId := db.nextId + 1;
    assert db.State() == s';
    r := Ok(c);
  }
}
