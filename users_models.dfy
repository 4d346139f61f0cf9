/** The identity records of users/models.py: the account manager's two
    factories, and the three tables (users, role claims, signatures) with
    their uniqueness, one-to-one and cascade-delete constraints, held by an
    in-memory store. */
module UsersModels {
  import opened Wrappers
  import opened CoreModels

  /** `phone = CharField(max_length=16)`. */
  type PhoneText = s: string | |s| <= 16

  /** `image_key = CharField(max_length=512)`: an opaque object-storage key. */
  type ImageKey = s: string | |s| <= 512

  /* ---------- Roles ---------- */

  /** `RoleClaim.Role`, the choices of the `role` column. */
  datatype Role = Admin | Special | User

  /** The text stored in the `role` column for each choice. */
  function RoleValue(r: Role): (v: string)
    ensures |v| <= 16
    ensures v == "admin" || v == "special" || v == "user"
  {
    match r
    case Admin => "admin"
    case Special => "special"
    case User => "user"
  }

  /** The choice a stored text stands for, `Role(value)`; None when the text
      is not one of the choices. */
  function RoleOfValue(v: string): (r: Option<Role>)
    ensures r.Some? <==> (v == "admin" || v == "special" || v == "user")
    ensures r.Some? ==> RoleValue(r.value) == v
  {
    if v == "admin" then Some(Admin)
    else if v == "special" then Some(Special)
    else if v == "user" then Some(User)
    else None
  }

  /** Storing a choice and reading it back gives the same choice. */
  lemma RoleRoundTrip(r: Role)
    ensures RoleOfValue(RoleValue(r)) == Some(r)
  {
  }

  /* ---------- Passwords ---------- */

  /** The encoded form produced by the password hasher. */
  type Digest = string

  /** The `password` column. A freshly built account holds the empty text;
      `set_unusable_password` marks it as unable to log in by password, which
      is a state of its own and not an empty password; `set_password` stores
      the hasher's encoding of the raw password. */
  datatype PasswordState = Blank | Unusable | Usable(encoded: Digest)

  /** Python truthiness of the `password` argument: neither None nor "". */
  predicate IsTruthy(password: Option<string>)
  {
    password.Some? && password.value != ""
  }

  /** `check_password`: only a usable password can match, and only the raw
      password whose encoding it holds. */
  predicate CheckPassword(st: PasswordState, raw: string, hash: string -> Digest)
  {
    st.Usable? && st.encoded == hash(raw)
  }

  /** An account with an unusable (or blank) password cannot log in by any password. */
  lemma UnusableRejectsEveryPassword(st: PasswordState, raw: string, hash: string -> Digest)
    requires !st.Usable?
    ensures !CheckPassword(st, raw, hash)
  {
  }

  /** What `_create_user` stores for the `password` argument. */
  function InitialPassword(password: Option<string>, hash: string -> Digest): (st: PasswordState)
    ensures st != Blank
    ensures st.Usable? <==> IsTruthy(password)
    ensures IsTruthy(password) ==> CheckPassword(st, password.value, hash)
    ensures !IsTruthy(password) ==> forall raw :: !CheckPassword(st, raw, hash)
  {
    if IsTruthy(password) then Usable(hash(password.value)) else Unusable
  }

  /* ---------- Manager defaults ---------- */

  /** The `is_staff` and `is_superuser` entries of `**extra_fields`; None
      where the caller left the key out. */
  datatype ExtraFields = ExtraFields(isStaff: Option<bool>, isSuperuser: Option<bool>)

  /** The two privilege flags an account is built with. */
  datatype Flags = Flags(isStaff: bool, isSuperuser: bool)

  /** The errors the factories and the tables raise. */
  datatype StoreError =
    | PhoneNotSet              // ValueError: the phone number must be set
    | SuperuserNeedsStaff      // ValueError: superuser must have is_staff=True
    | SuperuserNeedsSuperuser  // ValueError: superuser must have is_superuser=True
    | PhoneTaken               // IntegrityError: `phone` is unique
    | UserMissing              // IntegrityError: the foreign key to users.User
    | RoleClaimTaken           // IntegrityError: `unique_together` on the claim key
    | SignatureTaken           // IntegrityError: the one-to-one `user` of Signature
    | UsernameTaken            // IntegrityError: the unique `username` column inherited from AbstractUser

  /** `create_user`'s two `setdefault` calls: a flag the caller left out is
      False, a flag the caller gave is kept. */
  function UserFlags(extra: ExtraFields): (f: Flags)
    ensures extra.isStaff.None? ==> !f.isStaff
    ensures extra.isSuperuser.None? ==> !f.isSuperuser
    ensures extra.isStaff.Some? ==> f.isStaff == extra.isStaff.value
    ensures extra.isSuperuser.Some? ==> f.isSuperuser == extra.isSuperuser.value
  {
    Flags(extra.isStaff.GetOr(false), extra.isSuperuser.GetOr(false))
  }

  /** `create_superuser`'s defaults and checks: both flags default to True,
      and a flag the caller set to anything but True is refused, `is_staff`
      first. On success both flags are True. */
  function SuperuserFlags(extra: ExtraFields): (r: Result<Flags, StoreError>)
    ensures r.Ok? <==> extra.isStaff != Some(false) && extra.isSuperuser != Some(false)
    ensures r.Ok? ==> r.value == Flags(true, true)
    ensures extra.isStaff == Some(false) ==> r == Err(SuperuserNeedsStaff)
    ensures extra.isStaff != Some(false) && extra.isSuperuser == Some(false) ==>
      r == Err(SuperuserNeedsSuperuser)
  {
    var staff := extra.isStaff.GetOr(true);
    var superuser := extra.isSuperuser.GetOr(true);
    if staff != true then Err(SuperuserNeedsStaff)
    else if superuser != true then Err(SuperuserNeedsSuperuser)
    else Ok(Flags(staff, superuser))
  }

  /* ---------- Records ---------- */

  /** An account, `User`. Its own `id` column is a UUID like the base
      records'; it has no timestamps of the base convention. */
  class Account {
    const id: Uuid
    const phone: PhoneText
    const isStaff: bool
    const isSuperuser: bool
    var password: PasswordState

    /** `self.model(phone=phone, **extra_fields)`. */
    constructor (id: Uuid, phone: PhoneText, flags: Flags)
      ensures this.id == id && this.phone == phone
      ensures isStaff == flags.isStaff && isSuperuser == flags.isSuperuser
      ensures password == Blank
    {
      this.id := id;
      this.phone := phone;
      isStaff, isSuperuser := flags.isStaff, flags.isSuperuser;
      password := Blank;
    }

    /** `set_password(raw)`. */
    method SetPassword(raw: string, hash: string -> Digest)
      modifies this
      ensures password == Usable(hash(raw))
    {
      password := Usable(hash(raw));
    }

    /** `set_unusable_password()`. */
    method SetUnusablePassword()
      modifies this
      ensures password == Unusable
    {
      password := Unusable;
    }
  }

  /** The columns that `unique_together` covers. */
  datatype ClaimKey = ClaimKey(user: Uuid, role: string, departmentId: Option<Uuid>)

  /** A `RoleClaim`: a role granted to a user, optionally within a department. */
  class RoleClaim {
    const base: BaseRecord
    const user: Uuid
    const role: string
    /** None is the unscoped claim. The department is a bare identifier with
        no table behind it. */
    const departmentId: Option<Uuid>

    constructor (base: BaseRecord, user: Uuid, role: string, departmentId: Option<Uuid>)
      ensures this.base == base && this.user == user
      ensures this.role == role && this.departmentId == departmentId
    {
      this.base := base;
      this.user := user;
      this.role := role;
      this.departmentId := departmentId;
    }

    function Key(): (k: ClaimKey)
    {
      ClaimKey(user, role, departmentId)
    }
  }

  /** A `Signature`: the object-storage key of one user's signature image. */
  class Signature {
    const base: BaseRecord
    const user: Uuid
    const imageKey: ImageKey

    constructor (base: BaseRecord, user: Uuid, imageKey: ImageKey)
      ensures this.base == base && this.user == user && this.imageKey == imageKey
    {
      this.base := base;
      this.user := user;
      this.imageKey := imageKey;
    }
  }

  /* ---------- Claim-key uniqueness ---------- */

  /** Whether two claim keys collide under the `unique_together` index as
      the database enforces it: SQL compares NULLs as distinct, so keys
      without a department never collide. */
  predicate SqlUniqueCollides(a: ClaimKey, b: ClaimKey)
  {
    a.user == b.user && a.role == b.role
    && a.departmentId.Some? && b.departmentId.Some?
    && a.departmentId.value == b.departmentId.value
  }

  /** Under SQL's NULL semantics the same unscoped claim can be stored twice,
      against the stated intent of one claim per user, role and scope; every
      collision the index does detect is one the intent forbids too. */
  lemma SqlAdmitsDuplicateUnscopedClaim(user: Uuid, role: Role)
    ensures var k := ClaimKey(user, RoleValue(role), None); !SqlUniqueCollides(k, k)
    ensures forall a, b :: SqlUniqueCollides(a, b) ==> a == b
  {
  }

  /* ---------- Table constraints ---------- */

  ghost predicate PhonesUnique(users: map<Uuid, Account>)
  {
    forall a, b :: a in users && b in users && a != b ==> users[a].phone != users[b].phone
  }

  /** One claim per user, role and scope. The unscoped scope (None) counts as
      one scope, as the doc comment on the constraint intends. */
  ghost predicate ClaimKeysUnique(claims: map<Uuid, RoleClaim>)
  {
    forall a, b :: a in claims && b in claims && a != b ==> claims[a].Key() != claims[b].Key()
  }

  ghost predicate RolesAreChoices(claims: map<Uuid, RoleClaim>)
  {
    forall k :: k in claims ==> RoleOfValue(claims[k].role).Some?
  }

  ghost predicate OneSignaturePerUser(signatures: map<Uuid, Signature>)
  {
    forall a, b :: a in signatures && b in signatures && a != b ==>
      signatures[a].user != signatures[b].user
  }

  ghost predicate ClaimsReferenceUsers(claims: map<Uuid, RoleClaim>, users: map<Uuid, Account>)
  {
    forall k :: k in claims ==> claims[k].user in users
  }

  ghost predicate SignaturesReferenceUsers(signatures: map<Uuid, Signature>, users: map<Uuid, Account>)
  {
    forall k :: k in signatures ==> signatures[k].user in users
  }

  /** Whether some stored claim already has `key`. */
  predicate ClaimKeyInUse(claims: map<Uuid, RoleClaim>, key: ClaimKey)
  {
    exists k :: k in claims && claims[k].Key() == key
  }

  /** Whether some stored signature already belongs to `user`. */
  predicate HasSignature(signatures: map<Uuid, Signature>, user: Uuid)
  {
    exists k :: k in signatures && signatures[k].user == user
  }

  /** Storing a claim under a new id keeps the keys unique when its key is new. */
  lemma InsertClaimKeepsKeysUnique(claims: map<Uuid, RoleClaim>, id: Uuid, claim: RoleClaim)
    requires ClaimKeysUnique(claims) && id !in claims && !ClaimKeyInUse(claims, claim.Key())
    ensures ClaimKeysUnique(claims[id := claim])
  {
  }

  /** Storing a signature under a new id keeps one signature per user when
      its user has none yet. */
  lemma InsertSignatureKeepsOnePerUser(signatures: map<Uuid, Signature>, id: Uuid, signature: Signature)
    requires OneSignaturePerUser(signatures) && id !in signatures
    requires !HasSignature(signatures, signature.user)
    ensures OneSignaturePerUser(signatures[id := signature])
  {
  }

  /** Whether some stored account already has `phone`. */
  predicate PhoneInUse(users: map<Uuid, Account>, phone: string)
  {
    exists k :: k in users && users[k].phone == phone
  }

  /* ---------- Cascade ---------- */

  /** The claims left once `user` is deleted. */
  function ClaimsWithoutUser(claims: map<Uuid, RoleClaim>, user: Uuid): (r: map<Uuid, RoleClaim>)
    ensures forall k :: k in r <==> k in claims && claims[k].user != user
    ensures forall k :: k in r ==> r[k] == claims[k]
  {
    map k | k in claims && claims[k].user != user :: claims[k]
  }

  /** The signatures left once `user` is deleted. */
  function SignaturesWithoutUser(signatures: map<Uuid, Signature>, user: Uuid): (r: map<Uuid, Signature>)
    ensures forall k :: k in r <==> k in signatures && signatures[k].user != user
    ensures forall k :: k in r ==> r[k] == signatures[k]
  {
    map k | k in signatures && signatures[k].user != user :: signatures[k]
  }

  /** The cascade keeps every table constraint: removing the user together
      with its claims and signature leaves no record pointing at it. */
  lemma CascadeKeepsConstraints(users: map<Uuid, Account>, claims: map<Uuid, RoleClaim>,
                                signatures: map<Uuid, Signature>, user: Uuid)
    requires PhonesUnique(users) && ClaimKeysUnique(claims) && RolesAreChoices(claims)
    requires OneSignaturePerUser(signatures)
    requires ClaimsReferenceUsers(claims, users) && SignaturesReferenceUsers(signatures, users)
    ensures var users', claims', signatures' :=
        users - {user}, ClaimsWithoutUser(claims, user), SignaturesWithoutUser(signatures, user);
      PhonesUnique(users') && ClaimKeysUnique(claims') && RolesAreChoices(claims')
      && OneSignaturePerUser(signatures')
      && ClaimsReferenceUsers(claims', users') && SignaturesReferenceUsers(signatures', users')
  {
  }

  /* ---------- The users table as declared ---------- */

  /** A row of the users table as the model is declared: `User` extends
      `AbstractUser` without removing its `username` column, which is unique
      and which `_create_user` never fills, so every row holds its default "". */
  datatype DeclaredUserRow = DeclaredUserRow(phone: string, username: string)

  /** Saving a new account into the table as declared: both the `phone` and
      the inherited `username` unique constraints apply. */
  function DeclaredInsert(rows: seq<DeclaredUserRow>, phone: string): (r: Result<seq<DeclaredUserRow>, StoreError>)
    ensures r.Ok? <==> forall i :: 0 <= i < |rows| ==> rows[i].phone != phone && rows[i].username != ""
    ensures r.Ok? ==> r.value == rows + [DeclaredUserRow(phone, "")]
  {
    if exists i :: 0 <= i < |rows| && rows[i].phone == phone then Err(PhoneTaken)
    else if exists i :: 0 <= i < |rows| && rows[i].username == "" then Err(UsernameTaken)
    else Ok(rows + [DeclaredUserRow(phone, "")])
  }

  /** As declared, the users table holds at most one account: once one
      account is stored, saving any other fails on the inherited `username`
      constraint, whatever its phone. */
  lemma DeclaredTableHoldsOneAccount(first: string, second: string)
    ensures DeclaredInsert([], first).Ok?
    ensures DeclaredInsert(DeclaredInsert([], first).value, second).Err?
  {
    var rows := DeclaredInsert([], first).value;
    assert rows[0].username == "";
  }

  /* ---------- The store ---------- */

  /** The three tables, keyed by record id, and the fresh-id supply. */
  class IdentityStore {
    var users: map<Uuid, Account>
    var roleClaims: map<Uuid, RoleClaim>
    var signatures: map<Uuid, Signature>
    /** Every id handed out so far is below `nextId`. */
    var nextId: Uuid

    ghost predicate Valid()
      reads this
    {
      (forall k :: k in users ==> users[k].id == k && k < nextId)
      && (forall k :: k in roleClaims ==> roleClaims[k].base.id == k && k < nextId)
      && (forall k :: k in signatures ==> signatures[k].base.id == k && k < nextId)
      && PhonesUnique(users)
      && ClaimKeysUnique(roleClaims) && RolesAreChoices(roleClaims)
      && OneSignaturePerUser(signatures)
      && ClaimsReferenceUsers(roleClaims, users)
      && SignaturesReferenceUsers(signatures, users)
    }

    /** The ids of `user`'s claims, `user.role_claims`. */
    ghost function RoleClaimsOf(user: Uuid): (r: set<Uuid>)
      reads this
      ensures r <= roleClaims.Keys
    {
      set k | k in roleClaims && roleClaims[k].user == user
    }

    /** The id of `user`'s signature, `user.signature`, if it has one. */
    ghost function SignatureOf(user: Uuid): (r: Option<Uuid>)
      reads this
      requires OneSignaturePerUser(signatures)
      ensures r.Some? ==> r.value in signatures && signatures[r.value].user == user
      ensures r.None? ==> forall k :: k in signatures ==> signatures[k].user != user
    {
      if exists k :: k in signatures && signatures[k].user == user then
        var k :| k in signatures && signatures[k].user == user; Some(k)
      else None
    }

    constructor ()
      ensures Valid()
      ensures users == map[] && roleClaims == map[] && signatures == map[]
    {
      users, roleClaims, signatures := map[], map[], map[];
      nextId := 0;
    }

    /** `_create_user`: refuses an empty phone; builds the account with the
        given flags and a usable or unusable password; the save then fails if
        the phone is taken. Nothing is stored on any error. */
    method CreateAccount(phone: PhoneText, password: Option<string>, flags: Flags,
                         hash: string -> Digest)
      returns (r: Result<Uuid, StoreError>)
      requires Valid()
      modifies this
      ensures Valid()
      ensures roleClaims == old(roleClaims) && signatures == old(signatures)
      ensures phone == "" ==> r == Err(PhoneNotSet) && users == old(users)
      ensures phone != "" && PhoneInUse(old(users), phone) ==>
        r == Err(PhoneTaken) && users == old(users)
      ensures phone != "" && !PhoneInUse(old(users), phone) ==>
        r.Ok? && r.value !in old(users) && r.value !in old(roleClaims)
        && r.value !in old(signatures)
        && r.value in users && users == old(users)[r.value := users[r.value]]
        && fresh(users[r.value])
        && users[r.value].phone == phone
        && users[r.value].isStaff == flags.isStaff
        && users[r.value].isSuperuser == flags.isSuperuser
        && users[r.value].password == InitialPassword(password, hash)
    {
      if phone == "" {
        return Err(PhoneNotSet);
      }
      var user := new Account(nextId, phone, flags);
      nextId := nextId + 1;
      if IsTruthy(password) {
        user.SetPassword(password.value, hash);
      } else {
        user.SetUnusablePassword();
      }
      if PhoneInUse(users, phone) {
        return Err(PhoneTaken);
      }
      users := users[user.id := user];
      r := Ok(user.id);
    }

    /** `create_user`: both flags default to False. */
    method CreateUser(phone: PhoneText, password: Option<string>, extra: ExtraFields,
                      hash: string -> Digest)
      returns (r: Result<Uuid, StoreError>)
      requires Valid()
      modifies this
      ensures Valid()
      ensures roleClaims == old(roleClaims) && signatures == old(signatures)
      ensures phone == "" ==> r == Err(PhoneNotSet) && users == old(users)
      ensures phone != "" && PhoneInUse(old(users), phone) ==>
        r == Err(PhoneTaken) && users == old(users)
      ensures phone != "" && !PhoneInUse(old(users), phone) ==>
        r.Ok? && r.value !in old(users) && r.value !in old(roleClaims)
        && r.value !in old(signatures)
        && r.value in users && users == old(users)[r.value := users[r.value]]
        && fresh(users[r.value])
        && users[r.value].phone == phone
        && Flags(users[r.value].isStaff, users[r.value].isSuperuser) == UserFlags(extra)
        && users[r.value].password == InitialPassword(password, hash)
    {
      r := CreateAccount(phone, password, UserFlags(extra), hash);
    }

    /** `create_superuser`: both flags default to True, and a flag set to
        anything but True is refused before the phone is looked at. */
    method CreateSuperuser(phone: PhoneText, password: Option<string>, extra: ExtraFields,
                           hash: string -> Digest)
      returns (r: Result<Uuid, StoreError>)
      requires Valid()
      modifies this
      ensures Valid()
      ensures roleClaims == old(roleClaims) && signatures == old(signatures)
      ensures SuperuserFlags(extra).Err? ==>
        r == Err(SuperuserFlags(extra).error) && users == old(users)
      ensures SuperuserFlags(extra).Ok? && phone == "" ==>
        r == Err(PhoneNotSet) && users == old(users)
      ensures SuperuserFlags(extra).Ok? && phone != "" && PhoneInUse(old(users), phone) ==>
        r == Err(PhoneTaken) && users == old(users)
      ensures SuperuserFlags(extra).Ok? && phone != "" && !PhoneInUse(old(users), phone) ==>
        r.Ok? && r.value !in old(users) && r.value !in old(roleClaims)
        && r.value !in old(signatures)
        && r.value in users && users == old(users)[r.value := users[r.value]]
        && fresh(users[r.value])
        && users[r.value].phone == phone
        && users[r.value].isStaff && users[r.value].isSuperuser
        && users[r.value].password == InitialPassword(password, hash)
    {
      var flags := SuperuserFlags(extra);
      if flags.Err? {
        return Err(flags.error);
      }
      r := CreateAccount(phone, password, flags.value, hash);
    }

    /** Creating a `RoleClaim` with the clock readings `now`: the user must exist and
        the (user, role, department) key must be new. */
    method CreateRoleClaim(user: Uuid, role: Role, departmentId: Option<Uuid>, now: SaveClock)
      returns (r: Result<Uuid, StoreError>)
      requires Valid()
      modifies this
      ensures Valid()
      ensures users == old(users) && signatures == old(signatures)
      ensures user !in old(users) ==> r == Err(UserMissing) && roleClaims == old(roleClaims)
      ensures user in old(users) && ClaimKeyInUse(old(roleClaims), ClaimKey(user, RoleValue(role), departmentId))
        ==> r == Err(RoleClaimTaken) && roleClaims == old(roleClaims)
      ensures r.Ok? ==>
        r.value !in old(users) && r.value !in old(roleClaims) && r.value !in old(signatures)
        && r.value in roleClaims && roleClaims == old(roleClaims)[r.value := roleClaims[r.value]]
        && fresh(roleClaims[r.value]) && fresh(roleClaims[r.value].base)
        && roleClaims[r.value].Key() == ClaimKey(user, RoleValue(role), departmentId)
        && roleClaims[r.value].base.Valid()
        && roleClaims[r.value].base.createdAt == Some(now.forCreated)
        && roleClaims[r.value].base.updatedAt == Some(now.forUpdated)
      ensures r.Err? ==> roleClaims == old(roleClaims)
      ensures r.Ok? <==>
        user in old(users) && !ClaimKeyInUse(old(roleClaims), ClaimKey(user, RoleValue(role), departmentId))
    {
      if user !in users {
        return Err(UserMissing);
      }
      var key := ClaimKey(user, RoleValue(role), departmentId);
      if ClaimKeyInUse(roleClaims, key) {
        return Err(RoleClaimTaken);
      }
      var base := new BaseRecord(nextId);
      nextId := nextId + 1;
      base.Save(now);
      var claim := new RoleClaim(base, user, RoleValue(role), departmentId);
      InsertClaimKeepsKeysUnique(roleClaims, base.id, claim);
      roleClaims := roleClaims[base.id := claim];
      r := Ok(base.id);
    }

    /** Creating a `Signature` with the clock readings `now`: the user must exist and
        must not have a signature already. */
    method CreateSignature(user: Uuid, imageKey: ImageKey, now: SaveClock)
      returns (r: Result<Uuid, StoreError>)
      requires Valid()
      modifies this
      ensures Valid()
      ensures users == old(users) && roleClaims == old(roleClaims)
      ensures user !in old(users) ==> r == Err(UserMissing) && signatures == old(signatures)
      ensures user in old(users) && HasSignature(old(signatures), user) ==>
        r == Err(SignatureTaken) && signatures == old(signatures)
      ensures r.Ok? ==>
        r.value !in old(users) && r.value !in old(roleClaims) && r.value !in old(signatures)
        && r.value in signatures && signatures == old(signatures)[r.value := signatures[r.value]]
        && fresh(signatures[r.value]) && fresh(signatures[r.value].base)
        && signatures[r.value].user == user && signatures[r.value].imageKey == imageKey
        && signatures[r.value].base.Valid()
        && signatures[r.value].base.createdAt == Some(now.forCreated)
        && signatures[r.value].base.updatedAt == Some(now.forUpdated)
      ensures r.Err? ==> signatures == old(signatures)
      ensures r.Ok? <==> user in old(users) && !HasSignature(old(signatures), user)
    {
      if user !in users {
        return Err(UserMissing);
      }
      if HasSignature(signatures, user) {
        return Err(SignatureTaken);
      }
      var base := new BaseRecord(nextId);
      nextId := nextId + 1;
      base.Save(now);
      var signature := new Signature(base, user, imageKey);
      InsertSignatureKeepsOnePerUser(signatures, base.id, signature);
      signatures := signatures[base.id := signature];
      r := Ok(base.id);
    }

    /** Deleting a user: `on_delete=CASCADE` removes exactly its claims and
        its signature; every other record stays as it was. Deleting an id
        that is not stored changes nothing. */
    method DeleteUser(user: Uuid)
      requires Valid()
      modifies this
      ensures Valid()
      ensures users == old(users) - {user}
      ensures roleClaims == ClaimsWithoutUser(old(roleClaims), user)
      ensures signatures == SignaturesWithoutUser(old(signatures), user)
      ensures nextId == old(nextId)
      ensures RoleClaimsOf(user) == {} && SignatureOf(user) == None
    {
      CascadeKeepsConstraints(users, roleClaims, signatures, user);
      users := users - {user};
      roleClaims := ClaimsWithoutUser(roleClaims, user);
      signatures := SignaturesWithoutUser(signatures, user);
    }
  }
}
