/** The user manager (core/managers.py): creating users and superusers
    from a phone, a password and extra keyword fields, with setdefault
    defaulting and the is-True checks of the superuser path. The users
    table is a sequence of saved rows. */
module Managers {
  import opened Common

  /** A keyword value as create_user can receive it. Only Flag(true) is
      Python's True. */
  datatype Value = Text(s: string) | Flag(b: bool) | Number(n: int) | Null

  /** A keyword name: the ones the manager reads or fills in, and any
      other field name. */
  datatype Key = IsStaff | IsSuperuser | IsActive | Role | Username | Phone | OtherField(name: string)

  type Kwargs = map<Key, Value>

  /** The phone argument as a value: None stays None. */
  function PhoneValue(phone: Option<string>): (v: Value)
    ensures phone.Some? <==> v.Text?
    ensures phone.Some? ==> v.s == phone.value
  {
    if phone.Some? then Text(phone.value) else Null
  }

  /** `if not phone`: None and the empty string are false. */
  predicate PhoneGiven(phone: Option<string>)
  {
    phone.Some? && phone.value != ""
  }

  /** dict.setdefault: add `key` with `v` only when the caller did not
      supply it; nothing the caller supplied changes. */
  function SetDefault(fields: Kwargs, key: Key, v: Value): (r: Kwargs)
    ensures r.Keys == fields.Keys + {key}
    ensures forall k :: k in fields ==> r[k] == fields[k]
    ensures key !in fields ==> r[key] == v
  {
    if key in fields then fields else fields[key := v]
  }

  /** Once a key is set, a second setdefault of it has no effect. */
  lemma SetDefaultIdempotent(fields: Kwargs, key: Key, v: Value, w: Value)
    ensures SetDefault(SetDefault(fields, key, v), key, w) == SetDefault(fields, key, v)
  {
  }

  /** A saved user: the phone, the password handed to set_password (None
      makes the password unusable) and every other field by name. */
  datatype UserRecord = UserRecord(phone: string, password: Option<string>, fields: Kwargs)

  function UsernameOf(fields: Kwargs): (v: Value)
    ensures Username !in fields ==> v == Null
  {
    if Username in fields then fields[Username] else Null
  }

  /** The unique constraints of phone and username (several null usernames
      are allowed). */
  predicate Clashes(users: seq<UserRecord>, phone: string, fields: Kwargs)
  {
    exists i :: 0 <= i < |users| &&
      (users[i].phone == phone || (UsernameOf(fields) != Null && UsernameOf(users[i].fields) == UsernameOf(fields)))
  }

  /** The keys create_superuser fills in when the caller leaves them out. */
  const SuperuserDefaults: set<Key> := {IsStaff, IsSuperuser, IsActive, Role, Username}

  /** The setdefault calls of create_superuser, in the source's order:
      each default only fills a key the caller left out. */
  method SuperuserDefaultsOf(extraFields: Kwargs, phone: Option<string>) returns (fields: Kwargs)
    ensures fields.Keys == extraFields.Keys + SuperuserDefaults
    ensures forall k :: k in extraFields ==> fields[k] == extraFields[k]
    ensures IsStaff !in extraFields ==> fields[IsStaff] == Flag(true)
    ensures IsSuperuser !in extraFields ==> fields[IsSuperuser] == Flag(true)
    ensures IsActive !in extraFields ==> fields[IsActive] == Flag(true)
    ensures Role !in extraFields ==> fields[Role] == Text("admin")
    ensures Username !in extraFields ==> fields[Username] == PhoneValue(phone)
  {
    fields := extraFields;
    fields := SetDefault(fields, IsStaff, Flag(true));
    fields := SetDefault(fields, IsSuperuser, Flag(true));
    assert fields.Keys == extraFields.Keys + {IsStaff, IsSuperuser};
    fields := SetDefault(fields, IsActive, Flag(true));
    fields := SetDefault(fields, Role, Text("admin"));
    fields := SetDefault(fields, Username, PhoneValue(phone));
  }

  /** CustomUserManager over the users table. */
  class UserManager {
    var users: seq<UserRecord>

    constructor ()
      ensures users == []
    {
      users := [];
    }

    /** create_user: a phone also passed among the extra fields is a second
        value for the named parameter, refused when the call binds its
        arguments, before anything else; then a missing or empty phone is
        refused; username defaults to the phone; a taken phone or username
        fails the save. A created user is appended to the table. */
    method CreateUser(phone: Option<string>, password: Option<string>, extraFields: Kwargs)
      returns (r: Result<UserRecord>)
      modifies this`users
      ensures Phone in extraFields ==> r == Err(DuplicatePhoneArgument)
      ensures Phone !in extraFields && !PhoneGiven(phone) ==> r == Err(PhoneRequired)
      ensures Phone !in extraFields && PhoneGiven(phone)
              && Clashes(old(users), phone.value, SetDefault(extraFields, Username, Text(phone.value))) ==>
                r == Err(DuplicateUser)
      ensures r.Ok? <==>
        PhoneGiven(phone) && Phone !in extraFields
        && !Clashes(old(users), phone.value, SetDefault(extraFields, Username, Text(phone.value)))
      ensures r.Ok? ==>
        && r.value.phone == phone.value && r.value.password == password
        && r.value.fields.Keys == extraFields.Keys + {Username}
        && (forall k :: k in extraFields ==> r.value.fields[k] == extraFields[k])
        && (Username !in extraFields ==> r.value.fields[Username] == Text(phone.value))
        && users == old(users) + [r.value]
      ensures r.Err? ==> users == old(users)
    {
      if Phone in extraFields {
        return Err(DuplicatePhoneArgument);
      }
      if !PhoneGiven(phone) {
        return Err(PhoneRequired);
      }
      var fields := SetDefault(extraFields, Username, Text(phone.value));
      var user := UserRecord(phone.value, password, fields);
      if Clashes(users, user.phone, user.fields) {
        return Err(DuplicateUser);
      }
      users := users + [user];
      r := Ok(user);
    }

    /** create_superuser: a phone also passed among the extra fields is
        refused when the call binds its arguments, before anything else;
        is_staff, is_superuser and is_active default to True, role to
        "admin" and username to the phone; an is_staff or is_superuser that
        is not True is refused before the phone is even looked at; then
        create_user does the rest, phone check included. */
    method CreateSuperuser(phone: Option<string>, password: Option<string>, extraFields: Kwargs)
      returns (r: Result<UserRecord>)
      modifies this`users
      ensures Phone in extraFields ==> r == Err(DuplicatePhoneArgument)
      ensures Phone !in extraFields && IsStaff in extraFields && extraFields[IsStaff] != Flag(true) ==>
                r == Err(NotStaff)
      ensures Phone !in extraFields && (IsStaff !in extraFields || extraFields[IsStaff] == Flag(true))
              && IsSuperuser in extraFields && extraFields[IsSuperuser] != Flag(true) ==>
                r == Err(NotSuperuser)
      ensures Phone !in extraFields && (IsStaff !in extraFields || extraFields[IsStaff] == Flag(true))
              && (IsSuperuser !in extraFields || extraFields[IsSuperuser] == Flag(true))
              && !PhoneGiven(phone) ==>
                r == Err(PhoneRequired)
      ensures Phone !in extraFields && (IsStaff !in extraFields || extraFields[IsStaff] == Flag(true))
              && (IsSuperuser !in extraFields || extraFields[IsSuperuser] == Flag(true))
              && PhoneGiven(phone)
              && Clashes(old(users), phone.value, SetDefault(extraFields, Username, Text(phone.value))) ==>
                r == Err(DuplicateUser)
      ensures r.Ok? <==>
        && Phone !in extraFields
        && (IsStaff !in extraFields || extraFields[IsStaff] == Flag(true))
        && (IsSuperuser !in extraFields || extraFields[IsSuperuser] == Flag(true))
        && PhoneGiven(phone)
        && !Clashes(old(users), phone.value, SetDefault(extraFields, Username, Text(phone.value)))
      ensures r.Ok? ==>
        && PhoneGiven(phone) && r.value.phone == phone.value && r.value.password == password
        && r.value.fields.Keys == extraFields.Keys + SuperuserDefaults
        && r.value.fields[IsStaff] == Flag(true) && r.value.fields[IsSuperuser] == Flag(true)
        && r.value.fields[IsActive] == (if IsActive in extraFields then extraFields[IsActive] else Flag(true))
        && r.value.fields[Role] == (if Role in extraFields then extraFields[Role] else Text("admin"))
        && r.value.fields[Username] == (if Username in extraFields then extraFields[Username] else Text(phone.value))
        && (forall k :: k in extraFields ==> r.value.fields[k] == extraFields[k])
        && users == old(users) + [r.value]
      ensures r.Err? ==> users == old(users)
    {
      if Phone in extraFields {
        return Err(DuplicatePhoneArgument);
      }
      var fields := SuperuserDefaultsOf(extraFields, phone);
      if fields[IsStaff] != Flag(true) {
        return Err(NotStaff);
      }
      if fields[IsSuperuser] != Flag(true) {
        return Err(NotSuperuser);
      }
      r := CreateUser(phone, password, fields);
    }
  }
}
