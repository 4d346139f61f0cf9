/** Client methods of the store on sample situations of account, claim and
    signature handling: each method builds a fresh store and calls its
    operations, and its contract states what the store's specifications
    alone guarantee about the outcome. */
module Scenarios {
  import opened Wrappers
  import opened CoreModels
  import opened UsersModels

  /** Two accounts with different phones can both be created. */
  method TwoAccounts(hash: string -> Digest)
    returns (first: Result<Uuid, StoreError>, second: Result<Uuid, StoreError>)
    ensures first.Ok? && second.Ok? && first.value != second.value
  {
    var store := new IdentityStore();
    first := store.CreateUser("+15551234567", None, ExtraFields(None, None), hash);
    second := store.CreateUser("+15550000001", Some("pw"), ExtraFields(None, None), hash);
  }

  /** A second account with the same phone is refused, whatever its other fields. */
  method SamePhoneTwice(hash: string -> Digest)
    returns (first: Result<Uuid, StoreError>, second: Result<Uuid, StoreError>)
    ensures first.Ok? && second == Err(PhoneTaken)
  {
    var store := new IdentityStore();
    first := store.CreateUser("+15551234567", None, ExtraFields(None, None), hash);
    second := store.CreateSuperuser("+15551234567", Some("pw"), ExtraFields(None, None), hash);
  }

  /** An account created without a password has the unusable state, is no
      superuser, and no password logs it in. */
  method NoPassword(hash: string -> Digest) returns (stored: PasswordState, staff: bool)
    ensures stored == Unusable && !staff
    ensures forall raw :: !CheckPassword(stored, raw, hash)
  {
    var store := new IdentityStore();
    var r := store.CreateUser("+15550000001", None, ExtraFields(None, None), hash);
    stored := store.users[r.value].password;
    staff := store.users[r.value].isStaff;
  }

  /** `create_superuser` with a password gives both flags and a password that
      logs in; setting `is_staff` to False is refused and stores nothing. */
  method Superuser(hash: string -> Digest)
    returns (made: Flags, loggedIn: bool, refused: Result<Uuid, StoreError>, stored: nat)
    ensures made == Flags(true, true) && loggedIn
    ensures refused == Err(SuperuserNeedsStaff) && stored == 1
  {
    var store := new IdentityStore();
    var r := store.CreateSuperuser("+15550000002", Some("pw"), ExtraFields(None, None), hash);
    made := Flags(store.users[r.value].isStaff, store.users[r.value].isSuperuser);
    loggedIn := CheckPassword(store.users[r.value].password, "pw", hash);
    refused := store.CreateSuperuser("+15550000003", Some("pw"), ExtraFields(Some(false), None), hash);
    stored := |store.users|;
  }

  /** An unscoped claim cannot be granted twice; the same role in a
      department is a different scope and is granted. */
  method ClaimScopes(hash: string -> Digest, department: Uuid, now: SaveClock)
    returns (again: Result<Uuid, StoreError>, scoped: Result<Uuid, StoreError>)
    ensures again == Err(RoleClaimTaken) && scoped.Ok?
  {
    var store := new IdentityStore();
    var a := store.CreateUser("+15551234567", None, ExtraFields(None, None), hash);
    var c := store.CreateRoleClaim(a.value, Admin, None, now);
    again := store.CreateRoleClaim(a.value, Admin, None, now);
    scoped := store.CreateRoleClaim(a.value, Admin, Some(department), now);
  }

  /** A second signature for the same account is refused. */
  method SecondSignature(hash: string -> Digest, now: SaveClock)
    returns (first: Result<Uuid, StoreError>, second: Result<Uuid, StoreError>)
    ensures first.Ok? && second == Err(SignatureTaken)
  {
    var store := new IdentityStore();
    var a := store.CreateUser("+15551234567", None, ExtraFields(None, None), hash);
    first := store.CreateSignature(a.value, "signatures/a.png", now);
    second := store.CreateSignature(a.value, "signatures/b.png", now);
  }

  /** Deleting account A removes A's claim and keeps B's claim. */
  method CascadeClaims(hash: string -> Digest, now: SaveClock)
    returns (aClaimGone: bool, bClaimKept: bool)
    ensures aClaimGone && bClaimKept
  {
    var store := new IdentityStore();
    var a := store.CreateUser("+15551234567", None, ExtraFields(None, None), hash);
    var b := store.CreateUser("+15550000001", None, ExtraFields(None, None), hash);
    var ca := store.CreateRoleClaim(a.value, Special, None, now);
    var cb := store.CreateRoleClaim(b.value, Special, None, now);
    store.DeleteUser(a.value);
    aClaimGone := ca.value !in store.roleClaims;
    bClaimKept := cb.value in store.roleClaims;
  }

  /** Deleting account A removes its signature; the lookup then finds none. */
  method CascadeSignature(hash: string -> Digest, now: SaveClock)
    returns (signatureGone: bool)
    ensures signatureGone
  {
    var store := new IdentityStore();
    var a := store.CreateUser("+15551234567", None, ExtraFields(None, None), hash);
    var sa := store.CreateSignature(a.value, "signatures/a.png", now);
    store.DeleteUser(a.value);
    signatureGone := sa.value !in store.signatures;
  }

  /** Saving a stored claim again keeps its id and the `created_at` of the
      inserting save and moves `updated_at` to the new clock reading. */
  method ResaveClaim(hash: string -> Digest, created: SaveClock, later: SaveClock)
    returns (id: Uuid, createdAt: Option<Time>, updatedAt: Option<Time>)
    ensures createdAt == Some(created.forCreated) && updatedAt == Some(later.forUpdated)
  {
    var store := new IdentityStore();
    var a := store.CreateUser("+15551234567", None, ExtraFields(None, None), hash);
    var c := store.CreateRoleClaim(a.value, User, None, created);
    var claim := store.roleClaims[c.value];
    claim.base.Save(later);
    id, createdAt, updatedAt := claim.base.id, claim.base.createdAt, claim.base.updatedAt;
  }
}
