/**
 * Player accounts and the database that caches and resolves them.
 *
 * `Account` and `Database` live in one module because each refers to the
 * other: an account's role change submits a task to the database, and the
 * database caches and creates accounts.
 */
module AccountStore {
  import opened Results
  import opened Bson

  // ---------------------------------------------------------------------
  // Roles

  /** The authorization levels an account can hold. */
  datatype Role = PLAYER | DEV | ADMIN

  /** `Role.name()`. */
  function RoleName(r: Role): string {
    match r
    case PLAYER => "PLAYER"
    case DEV => "DEV"
    case ADMIN => "ADMIN"
  }

  /** `Role.valueOf(name)`: NullPointerException for null, IllegalArgumentException for an unknown name. */
  function RoleValueOf(s: Option<string>): (r: Result<Role>)
    ensures s.None? ==> r == Err(NullPointer)
    ensures r.Ok? ==> s.Some? && RoleName(r.value) == s.value
    ensures s.Some? && (forall k: Role :: RoleName(k) != s.value) ==> r == Err(IllegalArgument)
  {
    if s.None? then Err(NullPointer)
    else if s.value == "PLAYER" then Ok(PLAYER)
    else if s.value == "DEV" then Ok(DEV)
    else if s.value == "ADMIN" then Ok(ADMIN)
    else Err(IllegalArgument)
  }

  lemma RoleNameRoundTrip(r: Role)
    ensures RoleValueOf(Some(RoleName(r))) == Ok(r)
  {
  }

  // ---------------------------------------------------------------------
  // The stored form of an account

  /**
   * The typed fields of an account, as Java holds them: null is None, and the
   * two history lists hold whatever the document held (Java's lists are
   * type-erased).
   */
  datatype Fields = Fields(
    uuid: Option<Uuid>,
    name: Option<string>,
    previousUsernames: Option<seq<Value>>,
    role: Role,
    currentIP: Option<string>,
    previousAddresses: Option<seq<Value>>)

  /** The keys the typed fields are stored under, with the derived `name_lower`. */
  const TypedKeys: set<string> :=
    {"uuid", "name", "name_lower", "previous_names", "role", "current_address", "previous_addresses"}

  /**
   * What the field writer appends for every field not skipped (`uuid`,
   * `customData` and `raw` are skipped): the `@SerializedName` of the field,
   * or its own name, and the role by its name.
   */
  function WriteFields(f: Fields): Document {
    map[
      "name" := StrOrNull(f.name),
      "previous_names" := ListOrNull(f.previousUsernames),
      "role" := Str(RoleName(f.role)),
      "current_address" := StrOrNull(f.currentIP),
      "previous_addresses" := ListOrNull(f.previousAddresses)]
  }

  /**
   * `asDocument()`: the written fields, then `uuid` as text, then `name_lower`
   * derived from the current name, then every custom entry, written last so
   * that it overrides a typed key of the same name. A null uuid or name is
   * dereferenced and raises NullPointerException.
   */
  function Encode(f: Fields, custom: map<string, Value>): (r: Result<Document>)
    ensures r.Err? <==> f.uuid.None? || f.name.None?
    ensures r.Err? ==> r.error == NullPointer
    ensures r.Ok? ==> r.value.Keys == TypedKeys + custom.Keys
    ensures r.Ok? ==> "uuid" in r.value && "name_lower" in r.value
    ensures r.Ok? ==> forall k :: k in custom ==> r.value[k] == custom[k]
    ensures r.Ok? && "uuid" !in custom ==> r.value["uuid"] == Str(UuidToString(f.uuid.value))
    ensures r.Ok? && "name_lower" !in custom ==> r.value["name_lower"] == Str(ToLower(f.name.value))
    ensures r.Ok? ==> forall k :: k in r.value && k !in custom && k in WriteFields(f) ==> r.value[k] == WriteFields(f)[k]
  {
    if f.uuid.None? || f.name.None? then Err(NullPointer)
    else
      var d := WriteFields(f)["uuid" := Str(UuidToString(f.uuid.value))]
                             ["name_lower" := Str(ToLower(f.name.value))];
      Ok(d + custom)
  }

  /** The error a result carries, if any. */
  function ErrorOf<T>(r: Result<T>): Option<Error> {
    if r.Err? then Some(r.error) else None
  }

  /**
   * The outcome of each read `populateFromDocument(d)` makes, in the order it
   * makes them: `uuid` and its parse, `name`, `role` and its lookup,
   * `previous_names`, `current_address`, `previous_addresses`. A parse or
   * lookup of a value that could not be read is not reached.
   */
  function ReadErrors(d: Document): seq<Option<Error>> {
    var us := GetString(d, "uuid");
    var rs := GetString(d, "role");
    [ErrorOf(us),
     if us.Ok? then ErrorOf(ParseUuid(us.value)) else None,
     ErrorOf(GetString(d, "name")),
     ErrorOf(rs),
     if rs.Ok? then ErrorOf(RoleValueOf(rs.value)) else None,
     ErrorOf(GetList(d, "previous_names")),
     ErrorOf(GetString(d, "current_address")),
     ErrorOf(GetList(d, "previous_addresses"))]
  }

  /** The first error of a sequence of outcomes: Java stops at the first exception. */
  function FirstError(errors: seq<Option<Error>>): (r: Option<Error>)
    ensures r.None? <==> forall i :: 0 <= i < |errors| ==> errors[i].None?
    ensures r.Some? ==> exists i :: 0 <= i < |errors| && errors[i] == r
                                    && forall j :: 0 <= j < i ==> errors[j].None?
  {
    if |errors| == 0 then None
    else if errors[0].Some? then errors[0]
    else
      var rest := FirstError(errors[1..]);
      assert forall i :: 1 <= i < |errors| ==> errors[i] == errors[1..][i - 1];
      rest
  }

  /** An error all of whose predecessors succeeded is the first error. */
  lemma FirstErrorIs(errors: seq<Option<Error>>, k: nat)
    requires k < |errors| && errors[k].Some?
    requires forall j :: 0 <= j < k ==> errors[j].None?
    ensures FirstError(errors) == errors[k]
  {
    assert FirstError(errors).Some? by {
      assert !errors[k].None?;
    }
    var i :| 0 <= i < |errors| && errors[i] == FirstError(errors)
             && forall j :: 0 <= j < i ==> errors[j].None?;
    assert !(i < k);
    assert !(k < i);
  }

  /**
   * `populateFromDocument(d)`, read field by field in the source's order; the
   * first failing read gives the error (see DecodeFirstError).
   */
  function Decode(d: Document): (r: Result<Fields>)
    ensures r.Ok? ==> r.value.uuid.Some? && GetString(d, "uuid").Ok?
                      && ParseUuid(GetString(d, "uuid").value) == Ok(r.value.uuid.value)
    ensures r.Ok? ==> GetString(d, "name") == Ok(r.value.name)
    ensures r.Ok? ==> GetString(d, "role").Ok? && RoleValueOf(GetString(d, "role").value) == Ok(r.value.role)
    ensures r.Ok? ==> GetList(d, "previous_names") == Ok(r.value.previousUsernames)
    ensures r.Ok? ==> GetString(d, "current_address") == Ok(r.value.currentIP)
    ensures r.Ok? ==> GetList(d, "previous_addresses") == Ok(r.value.previousAddresses)
    ensures "uuid" !in d ==> r == Err(NullPointer)
    ensures "role" !in d ==> r.Err?
  {
    match GetString(d, "uuid")
    case Err(e) => Err(e)
    case Ok(us) =>
      match ParseUuid(us)
      case Err(e) => Err(e)
      case Ok(u) =>
        match GetString(d, "name")
        case Err(e) => Err(e)
        case Ok(n) =>
          match GetString(d, "role")
          case Err(e) => Err(e)
          case Ok(rs) =>
            match RoleValueOf(rs)
            case Err(e) => Err(e)
            case Ok(role) =>
              match GetList(d, "previous_names")
              case Err(e) => Err(e)
              case Ok(names) =>
                match GetString(d, "current_address")
                case Err(e) => Err(e)
                case Ok(ip) =>
                  match GetList(d, "previous_addresses")
                  case Err(e) => Err(e)
                  case Ok(addresses) => Ok(Fields(Some(u), n, names, role, ip, addresses))
  }

  /**
   * Round trip: populating from `asDocument()` restores every typed field,
   * when uuid and name are set and no custom entry shadows a typed key.
   */
  lemma DecodeEncode(f: Fields, custom: map<string, Value>)
    requires f.uuid.Some? && f.name.Some?
    requires custom.Keys !! TypedKeys
    ensures Encode(f, custom).Ok?
    ensures Decode(Encode(f, custom).value) == Ok(f)
  {
    var d := Encode(f, custom).value;
    assert d["uuid"] == Str(UuidToString(f.uuid.value));
    assert GetString(d, "uuid") == Ok(Some(UuidToString(f.uuid.value)));
    ParseUuidToString(f.uuid.value);
    StrOrNullRoundTrip(d, "name", f.name);
    assert GetString(d, "role") == Ok(Some(RoleName(f.role)));
    RoleNameRoundTrip(f.role);
    ListOrNullRoundTrip(d, "previous_names", f.previousUsernames);
    StrOrNullRoundTrip(d, "current_address", f.currentIP);
    ListOrNullRoundTrip(d, "previous_addresses", f.previousAddresses);
  }

  /**
   * Populating succeeds exactly when every read does, and otherwise fails
   * with the exception of the first read that fails.
   */
  lemma DecodeFirstError(d: Document)
    ensures Decode(d).Err? <==> FirstError(ReadErrors(d)).Some?
    ensures Decode(d).Err? ==> Some(Decode(d).error) == FirstError(ReadErrors(d))
  {
    var e := ReadErrors(d);
    if e[0].Some? { FirstErrorIs(e, 0); }
    else if e[1].Some? { FirstErrorIs(e, 1); }
    else if e[2].Some? { FirstErrorIs(e, 2); }
    else if e[3].Some? { FirstErrorIs(e, 3); }
    else if e[4].Some? { FirstErrorIs(e, 4); }
    else if e[5].Some? { FirstErrorIs(e, 5); }
    else if e[6].Some? { FirstErrorIs(e, 6); }
    else if e[7].Some? { FirstErrorIs(e, 7); }
  }

  /**
   * A document holding only the identity and the role populates an account
   * whose two history lists and current address are null, not empty.
   */
  lemma MinimalDocumentDecodes(u: Uuid, n: string, role: Role)
    ensures Decode(map["uuid" := Str(UuidToString(u)), "name" := Str(n),
                       "name_lower" := Str(ToLower(n)), "role" := Str(RoleName(role))])
            == Ok(Fields(Some(u), Some(n), None, role, None, None))
  {
    var d := map["uuid" := Str(UuidToString(u)), "name" := Str(n),
                 "name_lower" := Str(ToLower(n)), "role" := Str(RoleName(role))];
    assert GetString(d, "uuid") == Ok(Some(UuidToString(u)));
    ParseUuidToString(u);
    assert GetString(d, "role") == Ok(Some(RoleName(role)));
    RoleNameRoundTrip(role);
  }

  /**
   * A custom entry under a typed key replaces the typed value in the
   * document, so the round trip then reads the custom value instead.
   */
  lemma CustomOverridesTypedKey(f: Fields, custom: map<string, Value>, k: string)
    requires f.uuid.Some? && f.name.Some?
    requires k in custom && k in TypedKeys
    ensures Encode(f, custom).Ok? && Encode(f, custom).value[k] == custom[k]
  {
  }

  /**
   * The document `asDocument()` writes is found by both store filters: by the
   * uuid text, and by the lower-cased form of any name equal to the account's
   * ignoring case.
   */
  lemma EncodedDocumentMatchesFilters(f: Fields, custom: map<string, Value>, n: string)
    requires f.uuid.Some? && f.name.Some?
    requires custom.Keys !! TypedKeys
    requires EqualsIgnoreCase(n, f.name.value)
    ensures Encode(f, custom).Ok?
    ensures Matches(Encode(f, custom).value, "uuid", Str(UuidToString(f.uuid.value)))
    ensures Matches(Encode(f, custom).value, "name_lower", Str(ToLower(n)))
  {
    EqualsIgnoreCaseIsLowerEquality(n, f.name.value);
  }

  // ---------------------------------------------------------------------
  // The document store

  /**
   * The equality filter `eq(field, v)` on one document: the field holds v,
   * or it holds an array with v among its elements.
   */
  predicate Matches(d: Document, field: string, v: Value) {
    field in d && (d[field] == v || (d[field].List? && v in d[field].items))
  }

  /** `find(eq(field, v)).limit(1).first()` on docs[from..]: the index of the first match. */
  function FindFirst(docs: seq<Document>, field: string, v: Value, from: nat): (r: Option<nat>)
    requires from <= |docs|
    ensures r.Some? ==> from <= r.value < |docs| && Matches(docs[r.value], field, v)
    ensures r.Some? ==> forall j :: from <= j < r.value ==> !Matches(docs[j], field, v)
    ensures r.None? <==> forall j :: from <= j < |docs| ==> !Matches(docs[j], field, v)
    decreases |docs| - from
  {
    if from == |docs| then None
    else if Matches(docs[from], field, v) then Some(from)
    else FindFirst(docs, field, v, from + 1)
  }

  /**
   * The filter a fetch sends to the store: `uuid == uuid.toString()` when
   * looking up by UUID, `name_lower == username.toLowerCase()` by username.
   * A null UUID outside username mode is dereferenced.
   */
  function StoreFilter(uuid: Option<Uuid>, username: Option<string>): (r: Result<(string, Value)>)
    ensures ByUsername(uuid, username) ==> r == Ok(("name_lower", Str(ToLower(username.value))))
    ensures !ByUsername(uuid, username) && uuid.Some? ==> r == Ok(("uuid", Str(UuidToString(uuid.value))))
    ensures !ByUsername(uuid, username) && uuid.None? ==> r == Err(NullPointer)
  {
    if ByUsername(uuid, username) then Ok(("name_lower", Str(ToLower(username.value))))
    else if uuid.Some? then Ok(("uuid", Str(UuidToString(uuid.value))))
    else Err(NullPointer)
  }

  /** The identity mode: a lookup is by username only when no UUID and a username are given. */
  predicate ByUsername(uuid: Option<Uuid>, username: Option<string>) {
    uuid.None? && username.Some?
  }

  /** Given both a UUID and a username, the lookup is by UUID. */
  lemma UuidWinsOverUsername(u: Uuid, n: string)
    ensures !ByUsername(Some(u), Some(n))
    ensures StoreFilter(Some(u), Some(n)) == StoreFilter(Some(u), None)
  {
  }

  /** What the store answers a fetch: an error, no document, or the first matching document. */
  function StoreAnswer(docs: seq<Document>, uuid: Option<Uuid>, username: Option<string>): (r: Result<Option<Document>>)
    ensures r.Err? <==> StoreFilter(uuid, username).Err?
    ensures r.Ok? && r.value.Some? ==>
      (r.value.value in docs
       && Matches(r.value.value, StoreFilter(uuid, username).value.0, StoreFilter(uuid, username).value.1))
    ensures r.Ok? && r.value.Some? ==>
      var i := FindFirst(docs, StoreFilter(uuid, username).value.0, StoreFilter(uuid, username).value.1, 0);
      i.Some? && r.value.value == docs[i.value]
    ensures r == Ok(None) <==>
      (StoreFilter(uuid, username).Ok? &&
       forall j :: 0 <= j < |docs| ==>
         !Matches(docs[j], StoreFilter(uuid, username).value.0, StoreFilter(uuid, username).value.1))
  {
    match StoreFilter(uuid, username)
    case Err(e) => Err(e)
    case Ok((field, v)) =>
      var i := FindFirst(docs, field, v, 0);
      if i.None? then Ok(None) else Ok(Some(docs[i.value]))
  }

  /**
   * A document whose `uuid` is an array holding the UUID text is found by the
   * lookup, and populating it from that document fails at the first read.
   */
  lemma ArrayUuidIsFoundButUnreadable(u: Uuid)
    ensures var d := map["uuid" := List([Str(UuidToString(u))])];
            StoreAnswer([d], Some(u), None) == Ok(Some(d)) && Decode(d) == Err(ClassCast)
  {
    var d := map["uuid" := List([Str(UuidToString(u))])];
    assert Str(UuidToString(u)) in d["uuid"].items;
    assert Matches(d, "uuid", Str(UuidToString(u)));
  }

  /** A single-field update submitted to the executor: `updateOne(eq(filterField, filterValue), set(setField, setValue))`. */
  datatype Task = UpdateOne(filterField: string, filterValue: Result<Value>, setField: string, setValue: Value)

  /**
   * The task a role change submits. Its filter value is the account's uuid
   * text; for an account without a uuid the task raises NullPointerException
   * when it runs.
   */
  function RoleTask(uuid: Option<Uuid>, newRole: Role): Task {
    UpdateOne("uuid", if uuid.Some? then Ok(Str(UuidToString(uuid.value))) else Err(NullPointer),
              "role", Str(RoleName(newRole)))
  }

  /**
   * Running an update task against the collection: the first matching
   * document gets the field set; with no match nothing changes (the update
   * does not insert).
   */
  function RunTask(docs: seq<Document>, t: Task): (r: Result<seq<Document>>)
    ensures t.filterValue.Err? ==> r == Err(t.filterValue.error)
    ensures t.filterValue.Ok? ==> r.Ok?
    ensures t.filterValue.Ok? && FindFirst(docs, t.filterField, t.filterValue.value, 0).Some? ==>
      var i := FindFirst(docs, t.filterField, t.filterValue.value, 0).value;
      r.value == docs[i := docs[i][t.setField := t.setValue]]
    ensures r.Ok? ==> |r.value| == |docs|
    ensures r.Ok? && FindFirst(docs, t.filterField, t.filterValue.value, 0).None? ==> r.value == docs
    ensures r.Ok? ==> forall j :: 0 <= j < |docs| && r.value[j] != docs[j] ==>
      FindFirst(docs, t.filterField, t.filterValue.value, 0) == Some(j)
      && r.value[j] == docs[j][t.setField := t.setValue]
  {
    match t.filterValue
    case Err(e) => Err(e)
    case Ok(v) =>
      var i := FindFirst(docs, t.filterField, v, 0);
      if i.None? then Ok(docs)
      else Ok(docs[i.value := docs[i.value][t.setField := t.setValue]])
  }

  /** Setting the stored role changes the role read back from the document and nothing else. */
  lemma DecodeSetRole(d: Document, newRole: Role)
    requires Decode(d).Ok?
    ensures Decode(d["role" := Str(RoleName(newRole))]) == Ok(Decode(d).value.(role := newRole))
  {
    var d' := d["role" := Str(RoleName(newRole))];
    assert GetString(d', "role") == Ok(Some(RoleName(newRole)));
    RoleNameRoundTrip(newRole);
    assert GetString(d', "uuid") == GetString(d, "uuid");
    assert GetString(d', "name") == GetString(d, "name");
    assert GetList(d', "previous_names") == GetList(d, "previous_names");
    assert GetString(d', "current_address") == GetString(d, "current_address");
    assert GetList(d', "previous_addresses") == GetList(d, "previous_addresses");
  }

  /**
   * Once the role task of an account runs, fetching that account from the
   * store by UUID reads the new role, and every other field as before.
   */
  lemma RoleTaskIsVisibleToFetch(docs: seq<Document>, u: Uuid, newRole: Role)
    requires StoreAnswer(docs, Some(u), None).Ok? && StoreAnswer(docs, Some(u), None).value.Some?
    requires Decode(StoreAnswer(docs, Some(u), None).value.value).Ok?
    ensures RunTask(docs, RoleTask(Some(u), newRole)).Ok?
    ensures var after := RunTask(docs, RoleTask(Some(u), newRole)).value;
            StoreAnswer(after, Some(u), None).Ok? && StoreAnswer(after, Some(u), None).value.Some?
            && Decode(StoreAnswer(after, Some(u), None).value.value)
               == Ok(Decode(StoreAnswer(docs, Some(u), None).value.value).value.(role := newRole))
  {
    var key := Str(UuidToString(u));
    var i := FindFirst(docs, "uuid", key, 0).value;
    var d := docs[i];
    var d' := d["role" := Str(RoleName(newRole))];
    var after := docs[i := d'];
    assert StoreAnswer(docs, Some(u), None) == Ok(Some(d));
    assert RunTask(docs, RoleTask(Some(u), newRole)) == Ok(after);
    assert FindFirst(after, "uuid", key, 0) == Some(i) by {
      assert Matches(after[i], "uuid", key);
      forall j | 0 <= j < i ensures !Matches(after[j], "uuid", key) {
        assert after[j] == docs[j];
      }
    }
    assert StoreAnswer(after, Some(u), None) == Ok(Some(d'));
    DecodeSetRole(d, newRole);
  }

  /** `Future<T>` once completed: `get()` returns the value or raises the error. */
  datatype Future<T> = Future(outcome: Result<T>)

  // ---------------------------------------------------------------------
  // Account

  /** A player account: typed fields, the last loaded document and custom data. */
  class Account {
    /** The document this account was last populated from; none for a login-data account. */
    var raw: Option<Document>
    /** Values added with `addVal`, merged into the next `asDocument()`. */
    var customData: map<string, Value>
    var uuid: Option<Uuid>
    var name: Option<string>
    var previousUsernames: Option<seq<Value>>
    var role: Role
    var currentIP: Option<string>
    var previousAddresses: Option<seq<Value>>

    /** The typed fields of this account. */
    function TypedFields(): Fields
      reads this
    {
      Fields(uuid, name, previousUsernames, role, currentIP, previousAddresses)
    }

    /** `new Account()`: every field at its declared default. */
    constructor ()
      ensures raw == None && customData == map[]
      ensures TypedFields() == Fields(None, None, Some([]), PLAYER, None, Some([]))
    {
      raw := None;
      customData := map[];
      uuid := None;
      name := None;
      previousUsernames := Some([]);
      role := PLAYER;
      currentIP := None;
      previousAddresses := Some([]);
    }

    /**
     * `fromLoginData(uuid, name, ip)`: a fresh account with the given
     * identity and address, role PLAYER, empty histories and no document.
     */
    static method FromLoginData(u: Uuid, n: string, ip: string) returns (a: Account)
      ensures fresh(a)
      ensures a.TypedFields() == Fields(Some(u), Some(n), Some([]), PLAYER, Some(ip), Some([]))
      ensures a.raw == None && a.customData == map[]
    {
      a := new Account();
      a.uuid := Some(u);
      a.name := Some(n);
      a.currentIP := Some(ip);
    }

    /**
     * `val(key, type)`: the value stored under key in the last loaded
     * document. An account never populated has no document to read.
     */
    function Val(key: string, kind: Kind): (r: Result<Option<Value>>)
      reads this`raw
      ensures raw.None? ==> r == Err(NullPointer)
      ensures raw.Some? ==> r == Get(raw.value, key, kind)
      ensures r.Ok? && r.value.Some? ==> raw.Some? && key in raw.value && r.value.value == raw.value[key]
    {
      if raw.None? then Err(NullPointer) else Get(raw.value, key, kind)
    }

    /** `isPresent(key)`: whether the last loaded document has the key. */
    function IsPresent(key: string): (r: Result<bool>)
      reads this`raw
      ensures r.Err? <==> raw.None?
      ensures r.Err? ==> r.error == NullPointer
      ensures r.Ok? ==> (r.value <==> key in raw.value)
    {
      if raw.None? then Err(NullPointer) else Ok(key in raw.value)
    }

    /**
     * `addVal(key, v)`: puts the value into the custom data only; the loaded
     * document, and so `val` and `isPresent`, do not see it.
     */
    method AddVal(key: string, v: Value) returns (self: Account)
      modifies this`customData
      ensures self == this
      ensures customData == old(customData)[key := v]
      ensures raw == old(raw) && TypedFields() == old(TypedFields())
      ensures forall k, kind :: Val(k, kind) == old(Val(k, kind)) && IsPresent(k) == old(IsPresent(k))
    {
      customData := customData[key := v];
      self := this;
    }

    /**
     * `role(newRole, database)`: the in-memory role changes at once, and one
     * single-field update of the stored role is queued, not awaited.
     */
    method SetRole(newRole: Role, db: Database) returns (self: Account)
      modifies this`role, db`tasks
      ensures self == this && role == newRole
      ensures db.tasks == old(db.tasks) + [RoleTask(uuid, newRole)]
    {
      role := newRole;
      var _ := db.SubmitTask(RoleTask(uuid, newRole));
      self := this;
    }

    /** `asDocument()`. */
    function AsDocument(): (r: Result<Document>)
      reads this
      ensures r == Encode(TypedFields(), customData)
      ensures r.Err? <==> uuid.None? || name.None?
      ensures r.Ok? && "raw" !in customData ==> "raw" !in r.value
      ensures r.Ok? && "customData" !in customData ==> "customData" !in r.value
      ensures r.Ok? && "name_lower" !in customData ==> Matches(r.value, "name_lower", Str(ToLower(name.value)))
    {
      Encode(TypedFields(), customData)
    }

    /**
     * `populateFromDocument(d)`: reads the typed fields in order, assigning
     * each as it goes, and records the document last. A failed read raises
     * its exception, leaving the document and custom data as they were.
     */
    method PopulateFromDocument(d: Document) returns (r: Result<Account>)
      modifies this`uuid, this`name, this`role, this`previousUsernames, this`currentIP,
        this`previousAddresses, this`raw
      ensures r.Ok? <==> Decode(d).Ok?
      ensures r.Err? ==> r.error == Decode(d).error && raw == old(raw)
      ensures r.Ok? ==> r.value == this && TypedFields() == Decode(d).value && raw == Some(d)
      ensures customData == old(customData)
    {
      var us := GetString(d, "uuid");
      if us.Err? { return Err(us.error); }
      var u := ParseUuid(us.value);
      if u.Err? { return Err(u.error); }
      uuid := Some(u.value);
      var n := GetString(d, "name");
      if n.Err? { return Err(n.error); }
      name := n.value;
      var rs := GetString(d, "role");
      if rs.Err? { return Err(rs.error); }
      var ro := RoleValueOf(rs.value);
      if ro.Err? { return Err(ro.error); }
      role := ro.value;
      var names := GetList(d, "previous_names");
      if names.Err? { return Err(names.error); }
      previousUsernames := names.value;
      var ip := GetString(d, "current_address");
      if ip.Err? { return Err(ip.error); }
      currentIP := ip.value;
      var addresses := GetList(d, "previous_addresses");
      if addresses.Err? { return Err(addresses.error); }
      previousAddresses := addresses.value;
      raw := Some(d);
      r := Ok(this);
    }
  }

  /** After population, `isPresent` and `val` answer from the document. */
  lemma ReadsAfterPopulate(a: Account, d: Document, key: string)
    requires a.raw == Some(d)
    ensures a.IsPresent(key) == Ok(key in d)
    ensures key in d && d[key] != Null ==> a.Val(key, StringKind).Ok? ==> a.Val(key, StringKind) == Ok(Some(d[key]))
  {
  }

  // ---------------------------------------------------------------------
  // Database

  /** The account cache, the account collection and the executor's queue. */
  class Database {
    /** The local cache: at most one account per UUID. */
    var cache: map<Uuid, Account>
    /** The account collection in the store, in its natural order. */
    var accounts: seq<Document>
    /** Tasks submitted to the executor and not yet run. */
    var tasks: seq<Task>

    constructor (stored: seq<Document>)
      ensures cache == map[] && accounts == stored && tasks == []
    {
      cache := map[];
      accounts := stored;
      tasks := [];
    }

    /** `submitTask(task)`: queues the task; the handle is its place in the queue. */
    method SubmitTask(t: Task) returns (handle: nat)
      modifies this`tasks
      ensures tasks == old(tasks) + [t]
      ensures handle == |old(tasks)| && tasks[handle] == t
    {
      handle := |tasks|;
      tasks := tasks + [t];
    }

    /** Every cached account has a username. */
    ghost predicate AllNamed()
      reads this, cache.Values
    {
      forall u :: u in cache ==> cache[u].name.Some?
    }

    /** `cacheFetch(uuid)`. */
    function CacheFetchUuid(u: Uuid): (r: Option<Account>)
      reads this
      ensures r.Some? <==> u in cache
      ensures r.Some? ==> r.value == cache[u]
    {
      if u in cache then Some(cache[u]) else None
    }

    /** `cacheContains(uuid)`: agrees with `cacheFetch(uuid)`. */
    function CacheContainsUuid(u: Uuid): (b: bool)
      reads this
      ensures b <==> CacheFetchUuid(u).Some?
    {
      u in cache
    }

    /**
     * `cacheContains(username)`: scans the cached accounts, in no fixed
     * order, for one whose username equals the argument exactly (case
     * matters). Reaching an account without a username raises
     * NullPointerException.
     */
    method CacheContainsName(n: string) returns (r: Result<bool>)
      ensures r == Ok(true) ==> exists u :: u in cache && cache[u].name == Some(n)
      ensures r == Ok(false) ==> forall u :: u in cache ==> cache[u].name.Some? && cache[u].name.value != n
      ensures r.Err? ==> r.error == NullPointer && exists u :: u in cache && cache[u].name.None?
      ensures AllNamed() ==> r.Ok?
    {
      var keys := cache.Keys;
      while keys != {}
        invariant keys <= cache.Keys
        invariant forall u :: u in cache && u !in keys ==> cache[u].name.Some? && cache[u].name.value != n
        decreases keys
      {
        var u :| u in keys;
        var a := cache[u];
        if a.name.None? {
          return Err(NullPointer);
        }
        if a.name.value == n {
          return Ok(true);
        }
        keys := keys - {u};
      }
      return Ok(false);
    }

    /**
     * `cacheFetch(username)`: scans the cached accounts, in no fixed order,
     * for one whose username equals the argument ignoring case, and returns
     * the first found. Reaching an account without a username raises
     * NullPointerException.
     */
    method CacheFetchName(n: string) returns (r: Result<Option<Account>>)
      ensures r.Ok? && r.value.Some? ==>
        exists u :: u in cache && cache[u] == r.value.value
          && cache[u].name.Some? && EqualsIgnoreCase(cache[u].name.value, n)
      ensures r == Ok(None) ==>
        forall u :: u in cache ==> cache[u].name.Some? && !EqualsIgnoreCase(cache[u].name.value, n)
      ensures r.Err? ==> r.error == NullPointer && exists u :: u in cache && cache[u].name.None?
      ensures AllNamed() ==> r.Ok?
    {
      var keys := cache.Keys;
      while keys != {}
        invariant keys <= cache.Keys
        invariant forall u :: u in cache && u !in keys ==>
          cache[u].name.Some? && !EqualsIgnoreCase(cache[u].name.value, n)
        decreases keys
      {
        var u :| u in keys;
        var a := cache[u];
        if a.name.None? {
          return Err(NullPointer);
        }
        if EqualsIgnoreCase(a.name.value, n) {
          return Ok(Some(a));
        }
        keys := keys - {u};
      }
      return Ok(None);
    }

    /** `cacheInvalidate(uuid)`: removes that key only, and returns this database. */
    method CacheInvalidate(u: Uuid) returns (self: Database)
      modifies this`cache
      ensures self == this
      ensures cache == old(cache) - {u}
      ensures CacheFetchUuid(u).None?
      ensures forall v :: v != u ==> CacheFetchUuid(v) == old(CacheFetchUuid(v))
    {
      cache := cache - {u};
      self := this;
    }

    /**
     * `cacheCommit(account)`: stores the account under its uuid, replacing
     * any account cached under it, and returns the same account. An account
     * without a uuid raises NullPointerException and is not stored.
     */
    method CacheCommit(a: Account) returns (r: Result<Account>)
      modifies this`cache
      ensures a.uuid.None? ==> r == Err(NullPointer) && cache == old(cache)
      ensures a.uuid.Some? ==> r == Ok(a) && cache == old(cache)[a.uuid.value := a]
      ensures a.uuid.Some? ==> CacheContainsUuid(a.uuid.value) && CacheFetchUuid(a.uuid.value) == Some(a)
      ensures a.uuid.Some? ==> forall v :: v != a.uuid.value ==> CacheFetchUuid(v) == old(CacheFetchUuid(v))
    {
      if a.uuid.None? {
        return Err(NullPointer);
      }
      cache := cache[a.uuid.value := a];
      return Ok(a);
    }

    /** The result is an account that is not cached and was populated from doc. */
    twostate predicate LoadedFrom(new r: Result<Option<Account>>, doc: Document, f: Fields)
      reads if r.Ok? && r.value.Some? then {r.value.value} else {}
    {
      r.Ok? && r.value.Some? && fresh(r.value.value)
      && r.value.value.TypedFields() == f && r.value.value.raw == Some(doc) && r.value.value.customData == map[]
    }

    /** The result is what the store holds for the lookup. */
    twostate predicate FromStore(uuid: Option<Uuid>, username: Option<string>, new r: Result<Option<Account>>)
      reads this, if r.Ok? && r.value.Some? then {r.value.value} else {}
    {
      match StoreAnswer(accounts, uuid, username)
      case Err(e) => r == Err(e)
      case Ok(None) => r == Ok(None)
      case Ok(Some(doc)) =>
        match Decode(doc)
        case Err(e) => r == Err(e)
        case Ok(f) => LoadedFrom(r, doc, f)
    }

    /**
     * What the fetch transaction may return, in the source's resolution
     * order: in UUID mode a null UUID fails; with `useCache` a cached account
     * answers (by UUID, or by a name equal ignoring case), and a cache scan
     * that reaches an unnamed account fails; otherwise the store answers.
     */
    twostate predicate Resolved(uuid: Option<Uuid>, username: Option<string>, useCache: bool,
                                new r: Result<Option<Account>>)
      reads this, cache.Values, if r.Ok? && r.value.Some? then {r.value.value} else {}
    {
      if !ByUsername(uuid, username) then
        if uuid.None? then r == Err(NullPointer)
        else if useCache && uuid.value in cache then r == Ok(Some(cache[uuid.value]))
        else FromStore(uuid, username, r)
      else if !useCache then FromStore(uuid, username, r)
      else
        var n := username.value;
        || (r.Ok? && r.value.Some? &&
            exists u :: u in cache && cache[u] == r.value.value
              && cache[u].name.Some? && EqualsIgnoreCase(cache[u].name.value, n))
        || (r == Err(NullPointer) && exists u :: u in cache && cache[u].name.None?)
        || ((forall u :: u in cache ==> cache[u].name.Some? && !EqualsIgnoreCase(cache[u].name.value, n))
            && FromStore(uuid, username, r))
    }

    /**
     * The fetch transaction shared by the synchronous and asynchronous paths:
     * cache first when asked, then the first matching document, populated
     * into a new account. It never writes to the cache.
     */
    method Transaction(uuid: Option<Uuid>, username: Option<string>, useCache: bool)
      returns (r: Result<Option<Account>>)
      ensures Resolved(uuid, username, useCache, r)
      ensures ByUsername(uuid, username) && useCache && AllNamed() ==> r.Err? ==> FromStore(uuid, username, r)
    {
      var useUsername := uuid.None? && username.Some?;
      if useCache {
        if useUsername {
          var hit := CacheFetchName(username.value);
          if hit.Err? {
            return Err(hit.error);
          }
          if hit.value.Some? {
            return Ok(hit.value);
          }
        } else {
          if uuid.None? {
            return Err(NullPointer);
          }
          var hit := CacheFetchUuid(uuid.value);
          if hit.Some? {
            return Ok(hit);
          }
        }
      }
      var answer := StoreAnswer(accounts, uuid, username);
      if answer.Err? {
        return Err(answer.error);
      }
      if answer.value.None? {
        return Ok(None);
      }
      var a := new Account();
      var populated := a.PopulateFromDocument(answer.value.value);
      if populated.Err? {
        return Err(populated.error);
      }
      r := Ok(Some(a));
    }

    /**
     * The private `fetchAccount(uuid, username, useCache, async)`: runs the
     * transaction on the executor (the future holds its outcome), or
     * immediately, turning a failure into a RuntimeException.
     */
    method FetchAccount(uuid: Option<Uuid>, username: Option<string>, useCache: bool, async: bool)
      returns (r: Result<Future<Option<Account>>>, ghost t: Result<Option<Account>>)
      ensures Resolved(uuid, username, useCache, t)
      ensures async ==> r == Ok(Future(t))
      ensures !async ==> r == if t.Err? then Err(Runtime) else Ok(Future(t))
    {
      var outcome := Transaction(uuid, username, useCache);
      t := outcome;
      if async {
        r := Ok(Future(outcome));
      } else if outcome.Err? {
        r := Err(Runtime);
      } else {
        r := Ok(Future(outcome));
      }
    }

    /** `fetchAccount(username)`: asynchronous, cache first, by username. */
    method FetchAccountByName(username: Option<string>)
      returns (f: Future<Option<Account>>, ghost t: Result<Option<Account>>)
      ensures f == Future(t) && Resolved(None, username, true, t)
    {
      var r;
      r, t := FetchAccount(None, username, true, true);
      f := r.value;
    }

    /** `fetchAccount(uuid, callback)`: asynchronous, cache first, by UUID; the callback is never used. */
    method FetchAccountByUuid(uuid: Option<Uuid>)
      returns (f: Future<Option<Account>>, ghost t: Result<Option<Account>>)
      ensures f == Future(t) && Resolved(uuid, None, true, t)
    {
      var r;
      r, t := FetchAccount(uuid, None, true, true);
      f := r.value;
    }

    /**
     * `fetchAccountSync(uuid)` as written: the synchronous branch hands back
     * a completed future where the caller expects an Optional, so the cast at
     * the call site raises ClassCastException whenever the lookup succeeds.
     */
    method FetchAccountSyncAsWritten(uuid: Option<Uuid>)
      returns (r: Result<Option<Account>>, ghost t: Result<Option<Account>>)
      ensures Resolved(uuid, None, true, t)
      ensures r == if t.Err? then Err(Runtime) else Err(ClassCast)
    {
      var reply;
      reply, t := FetchAccount(uuid, None, true, false);
      r := if reply.Err? then Err(reply.error) else Err(ClassCast);
    }

    /**
     * `fetchAccountSync(uuid)` as intended: the transaction's outcome itself,
     * with a failure turned into a RuntimeException.
     */
    method FetchAccountSync(uuid: Option<Uuid>)
      returns (r: Result<Option<Account>>, ghost t: Result<Option<Account>>)
      ensures Resolved(uuid, None, true, t)
      ensures r == if t.Err? then Err(Runtime) else t
    {
      var reply;
      reply, t := FetchAccount(uuid, None, true, false);
      r := if reply.Err? then Err(reply.error) else reply.value.outcome;
    }
  }

  /**
   * A player the store does not know, fetched synchronously through an empty
   * cache: as written the fetch raises ClassCastException; as intended it
   * answers an empty Optional.
   */
  method UnknownPlayerSyncFetch(u: Uuid) returns (asWritten: Result<Option<Account>>, intended: Result<Option<Account>>)
    ensures asWritten == Err(ClassCast)
    ensures intended == Ok(None)
  {
    var db := new Database([]);
    ghost var t;
    asWritten, t := db.FetchAccountSyncAsWritten(Some(u));
    intended, t := db.FetchAccountSync(Some(u));
  }

  /**
   * The two username queries of the cache disagree on case: with "Steve"
   * cached, `cacheContains("steve")` is false while `cacheFetch("steve")`
   * finds the account.
   */
  method UsernameQueriesDifferOnCase(u: Uuid, ip: string)
    returns (contains: Result<bool>, fetched: Result<Option<Account>>, a: Account)
    ensures contains == Ok(false)
    ensures fetched == Ok(Some(a))
  {
    var db := new Database([]);
    a := Account.FromLoginData(u, "Steve", ip);
    var committed := db.CacheCommit(a);
    assert db.cache == map[u := a];
    assert a.name == Some("Steve") && "Steve" != "steve";
    assert db.AllNamed();
    assert forall v :: v in db.cache ==> db.cache[v].name != Some("steve");
    contains := db.CacheContainsName("steve");
    assert contains.Ok?;
    assert contains.value != true;
    assert contains == Ok(false);
    assert EqualsIgnoreCase("Steve", "steve");
    fetched := db.CacheFetchName("steve");
    assert fetched.Ok? && fetched.value.Some? ==> fetched.value.value == db.cache[u];
  }
}
