/** The authorization layer: the session a request carries, the sign-in gate,
    the seventeen capability predicates, the seven filter-producing rules and
    the construction of audit records. Every member is a pure function of the
    session snapshot it is given. */
module Access {
  import opened Wrappers
  import opened Filters
  import opened Records

  /** A role: a name and seventeen independent capability flags. */
  datatype Role = Role(
    id: string,
    name: string,
    // content management
    canCreateContent: bool,
    canEditAllContent: bool,
    canPublishContent: bool,
    canDeleteContent: bool,
    // asset management
    canUploadAssets: bool,
    canEditAllAssets: bool,
    canApproveAssets: bool,
    canDeleteAssets: bool,
    // brand management
    canManageBrands: bool,
    canEditBrandGuidelines: bool,
    canApproveForBrand: bool,
    // user management
    canManageUsers: bool,
    canAssignRoles: bool,
    canViewAnalytics: bool,
    // system administration
    canAccessAdminUI: bool,
    canManageSystem: bool,
    canViewAuditLogs: bool)

  /** The signed-in user's snapshot. The role is read through `role?` by every
      predicate, so it may be absent. */
  datatype SessionData = SessionData(name: string, email: string, department: string, role: Option<Role>)

  datatype Session = Session(itemId: string, listKey: string, data: SessionData)

  /** What an access function receives; the `item` it may also receive is read
      by none of the members of this module. */
  datatype AccessArgs = AccessArgs(session: Option<Session>)

  /** The seventeen capabilities, one per predicate in `permissions`. */
  datatype Capability =
    | CreateContent | EditAllContent | PublishContent | DeleteContent
    | UploadAssets | EditAllAssets | ApproveAssets | DeleteAssets
    | ManageBrands | EditBrandGuidelines | ApproveForBrand
    | ManageUsers | AssignRoles | ViewAnalytics
    | AccessAdminUI | ManageSystem | ViewAuditLogs

  /** The flag of `role` that stands for capability `c`. */
  function Flag(role: Role, c: Capability): bool
  {
    match c
    case CreateContent => role.canCreateContent
    case EditAllContent => role.canEditAllContent
    case PublishContent => role.canPublishContent
    case DeleteContent => role.canDeleteContent
    case UploadAssets => role.canUploadAssets
    case EditAllAssets => role.canEditAllAssets
    case ApproveAssets => role.canApproveAssets
    case DeleteAssets => role.canDeleteAssets
    case ManageBrands => role.canManageBrands
    case EditBrandGuidelines => role.canEditBrandGuidelines
    case ApproveForBrand => role.canApproveForBrand
    case ManageUsers => role.canManageUsers
    case AssignRoles => role.canAssignRoles
    case ViewAnalytics => role.canViewAnalytics
    case AccessAdminUI => role.canAccessAdminUI
    case ManageSystem => role.canManageSystem
    case ViewAuditLogs => role.canViewAuditLogs
  }

  /** `role` with the flag for `c` set to `b`: an administrative edit of one
      checkbox. Name, id and every other flag are kept. */
  function SetFlag(role: Role, c: Capability, b: bool): (r: Role)
    ensures Flag(r, c) == b
    ensures r.id == role.id && r.name == role.name
  {
    Role(
      role.id,
      role.name,
      if c == CreateContent then b else role.canCreateContent,
      if c == EditAllContent then b else role.canEditAllContent,
      if c == PublishContent then b else role.canPublishContent,
      if c == DeleteContent then b else role.canDeleteContent,
      if c == UploadAssets then b else role.canUploadAssets,
      if c == EditAllAssets then b else role.canEditAllAssets,
      if c == ApproveAssets then b else role.canApproveAssets,
      if c == DeleteAssets then b else role.canDeleteAssets,
      if c == ManageBrands then b else role.canManageBrands,
      if c == EditBrandGuidelines then b else role.canEditBrandGuidelines,
      if c == ApproveForBrand then b else role.canApproveForBrand,
      if c == ManageUsers then b else role.canManageUsers,
      if c == AssignRoles then b else role.canAssignRoles,
      if c == ViewAnalytics then b else role.canViewAnalytics,
      if c == AccessAdminUI then b else role.canAccessAdminUI,
      if c == ManageSystem then b else role.canManageSystem,
      if c == ViewAuditLogs then b else role.canViewAuditLogs)
  }

  /** Setting the flag for `c` leaves every other flag as it was. */
  lemma SetFlagKeepsOthers(role: Role, c: Capability, b: bool, other: Capability)
    requires other != c
    ensures Flag(SetFlag(role, c, b), other) == Flag(role, other)
  {
  }

  /** The same session with its role replaced. */
  function WithRole(s: Session, role: Option<Role>): Session
  {
    s.(data := s.data.(role := role))
  }

  // ---------------------------------------------------------------------
  // Sign-in gate and capability predicates
  // ---------------------------------------------------------------------

  /** `isSignedIn`: a session is present. */
  function IsSignedIn(args: AccessArgs): (r: bool)
    ensures r <==> args.session.Some?
  {
    match args.session
    case None => false
    case Some(_) => true
  }

  /** `permissions.<c>`: the role's flag for `c`, falling back to `false` when
      the session or its role is absent. The admin-UI gate of the server
      configuration is `Permission(AccessAdminUI, args)`. */
  function Permission(c: Capability, args: AccessArgs): bool
  {
    match args.session
    case None => false
    case Some(s) =>
      match s.data.role
      case None => false
      case Some(role) => Flag(role, c)
  }

  /** Fail closed: without a session, or without a role, no capability holds. */
  lemma PermissionFailsClosed(c: Capability, args: AccessArgs)
    requires args.session.None? || args.session.value.data.role.None?
    ensures !Permission(c, args)
  {
  }

  /** With a role present, each predicate returns exactly that role's flag. */
  lemma PermissionIsFlag(c: Capability, s: Session, role: Role)
    requires s.data.role == Some(role)
    ensures Permission(c, AccessArgs(Some(s))) == Flag(role, c)
  {
  }

  /** The flags are independent: setting one flag to either value changes no
      other capability's result, and that capability then reads the new value. */
  lemma PermissionIndependent(s: Session, role: Role, c: Capability, b: bool, other: Capability)
    requires s.data.role == Some(role)
    ensures Permission(c, AccessArgs(Some(WithRole(s, Some(SetFlag(role, c, b)))))) == b
    ensures other != c ==>
      Permission(other, AccessArgs(Some(WithRole(s, Some(SetFlag(role, c, b)))))) ==
      Permission(other, AccessArgs(Some(s)))
  {
    var edited := SetFlag(role, c, b);
    PermissionIsFlag(c, WithRole(s, Some(edited)), edited);
    if other != c {
      PermissionIsFlag(other, WithRole(s, Some(edited)), edited);
      SetFlagKeepsOthers(role, c, b, other);
    }
  }

  // ---------------------------------------------------------------------
  // Filter-producing rules
  // ---------------------------------------------------------------------

  /** What a rule returns: `false`, `true`, or a filter tree. */
  datatype Decision = Deny | AllowAll | Filter(e: Expr)

  /** Whether a decision lets `item` through. */
  function Admits(d: Decision, item: Item): bool
  {
    match d
    case Deny => false
    case AllowAll => true
    case Filter(e) => Eval(e, item)
  }

  function IdIs(id: string): Expr
  {
    Where(Id, Equals(Text(id)))
  }

  /** `rules.canReadContent`. */
  function CanReadContent(args: AccessArgs): (d: Decision)
    ensures d == Deny <==> args.session.None?
    ensures d == AllowAll <==>
      args.session.Some? && (Permission(EditAllContent, args) || Permission(ManageSystem, args))
  {
    match args.session
    case None => Deny
    case Some(s) =>
      if Permission(EditAllContent, args) || Permission(ManageSystem, args) then AllowAll
      else Filter(Or([
        Where(Status, Equals(Text("published"))),
        And([One(Author, IdIs(s.itemId)),
             Where(Status, In([Text("draft"), Text("review"), Text("approved")]))])]))
  }

  /** `rules.canManageContent`: `canManageSystem` alone does not allow all. */
  function CanManageContent(args: AccessArgs): (d: Decision)
    ensures d == Deny <==> args.session.None?
    ensures d == AllowAll <==> args.session.Some? && Permission(EditAllContent, args)
  {
    match args.session
    case None => Deny
    case Some(s) =>
      if Permission(EditAllContent, args) then AllowAll
      else Filter(And([One(Author, IdIs(s.itemId)),
                       Where(Status, Not(Equals(Text("published"))))]))
  }

  /** `rules.canReadAssets`. */
  function CanReadAssets(args: AccessArgs): (d: Decision)
    ensures d == Deny <==> args.session.None?
    ensures d == AllowAll <==>
      args.session.Some? && (Permission(EditAllAssets, args) || Permission(ManageSystem, args))
  {
    match args.session
    case None => Deny
    case Some(s) =>
      if Permission(EditAllAssets, args) || Permission(ManageSystem, args) then AllowAll
      else Filter(Or([Where(ApprovalStatus, Equals(Text("approved"))),
                      One(UploadedBy, IdIs(s.itemId))]))
  }

  /** `rules.canManageAssets`. */
  function CanManageAssets(args: AccessArgs): (d: Decision)
    ensures d == Deny <==> args.session.None?
    ensures d == AllowAll <==> args.session.Some? && Permission(EditAllAssets, args)
  {
    match args.session
    case None => Deny
    case Some(s) =>
      if Permission(EditAllAssets, args) then AllowAll
      else Filter(And([One(UploadedBy, IdIs(s.itemId)),
                       Where(ApprovalStatus, Not(Equals(Text("approved"))))]))
  }

  /** `rules.canReadUsers`. */
  function CanReadUsers(args: AccessArgs): (d: Decision)
    ensures d == Deny <==> args.session.None?
    ensures d == AllowAll <==> args.session.Some? && Permission(ManageUsers, args)
  {
    match args.session
    case None => Deny
    case Some(s) =>
      if Permission(ManageUsers, args) then AllowAll
      else Filter(Or([IdIs(s.itemId), Where(Department, Equals(Text(s.data.department)))]))
  }

  /** `rules.canUpdateUsers`. */
  function CanUpdateUsers(args: AccessArgs): (d: Decision)
    ensures d == Deny <==> args.session.None?
    ensures d == AllowAll <==> args.session.Some? && Permission(ManageUsers, args)
  {
    match args.session
    case None => Deny
    case Some(s) =>
      if Permission(ManageUsers, args) then AllowAll
      else Filter(IdIs(s.itemId))
  }

  /** `rules.canReadBrands`. */
  function CanReadBrands(args: AccessArgs): (d: Decision)
    ensures d == Deny <==> args.session.None?
    ensures d == AllowAll <==> args.session.Some? && Permission(ManageBrands, args)
  {
    match args.session
    case None => Deny
    case Some(s) =>
      if Permission(ManageBrands, args) then AllowAll
      else Filter(And([
        Where(IsActive, Equals(Bool(true))),
        Or([SomeOf(Departments, Where(Name, Equals(Text(s.data.department)))),
            Where(IsGlobal, Equals(Bool(true)))])]))
  }

  // ---------------------------------------------------------------------
  // What the rules admit
  // ---------------------------------------------------------------------

  /** The read-content rule admits a record iff the requester may see all
      content, or the record is published, or it is the requester's own draft,
      in-review or approved record. */
  lemma ReadContentAdmits(args: AccessArgs, c: Content)
    ensures Admits(CanReadContent(args), ContentItem(c)) <==>
      args.session.Some? &&
      (Permission(EditAllContent, args) || Permission(ManageSystem, args) ||
       c.status == Published ||
       (c.author == Some(args.session.value.itemId) && c.status in {Draft, InReview, ContentStatus.Approved}))
  {
    var d := CanReadContent(args);
    if d.Filter? {
      var s := args.session.value;
      var item := ContentItem(c);
      var published := Where(Status, Equals(Text("published")));
      var own := One(Author, IdIs(s.itemId));
      var early := Where(Status, In([Text("draft"), Text("review"), Text("approved")]));
      EvalOr2(published, And([own, early]), item);
      EvalAnd2(own, early, item);
      assert Eval(own, item) <==> c.author == Some(s.itemId);
    }
  }

  /** Without elevated flags, archived content is hidden, and so is everyone
      else's unpublished content. */
  lemma ReadContentHidesArchivedAndOthersDrafts(args: AccessArgs, c: Content)
    requires !Permission(EditAllContent, args) && !Permission(ManageSystem, args)
    requires c.status == Archived || (c.status != Published && (args.session.None? || c.author != Some(args.session.value.itemId)))
    ensures !Admits(CanReadContent(args), ContentItem(c))
  {
    ReadContentAdmits(args, c);
  }

  /** The manage-content rule admits a record iff the requester may edit all
      content, or the record is the requester's own and is not published. */
  lemma ManageContentAdmits(args: AccessArgs, c: Content)
    ensures Admits(CanManageContent(args), ContentItem(c)) <==>
      args.session.Some? &&
      (Permission(EditAllContent, args) ||
       (c.author == Some(args.session.value.itemId) && c.status != Published))
  {
    var d := CanManageContent(args);
    if d.Filter? {
      var s := args.session.value;
      var item := ContentItem(c);
      var own := One(Author, IdIs(s.itemId));
      var unpublished := Where(Status, Not(Equals(Text("published"))));
      EvalAnd2(own, unpublished, item);
      ContentStatusValuePublished(c.status);
      assert Eval(own, item) <==> c.author == Some(s.itemId);
      assert item.scalars[Status] == Text(ContentStatusValue(c.status));
      assert Holds(Not(Equals(Text("published"))), Text(ContentStatusValue(c.status))) <==> ContentStatusValue(c.status) != "published";
      assert Eval(unpublished, item) <==> c.status != Published;
    }
  }

  /** Published content is never manageable without `canEditAllContent`, not
      even by its author. */
  lemma PublishedFrozenForNonEditors(args: AccessArgs, c: Content)
    requires !Permission(EditAllContent, args) && c.status == Published
    ensures !Admits(CanManageContent(args), ContentItem(c))
  {
    ManageContentAdmits(args, c);
  }

  /** The read-assets rule admits an asset iff the requester may see all
      assets, or the asset is approved, or the requester uploaded it. */
  lemma ReadAssetsAdmits(args: AccessArgs, a: Asset)
    ensures Admits(CanReadAssets(args), AssetItem(a)) <==>
      args.session.Some? &&
      (Permission(EditAllAssets, args) || Permission(ManageSystem, args) ||
       a.approvalStatus == AssetStatus.Approved || a.uploadedBy == Some(args.session.value.itemId))
  {
    var d := CanReadAssets(args);
    if d.Filter? {
      var s := args.session.value;
      var item := AssetItem(a);
      var own := One(UploadedBy, IdIs(s.itemId));
      EvalOr2(Where(ApprovalStatus, Equals(Text("approved"))), own, item);
      assert Eval(own, item) <==> a.uploadedBy == Some(s.itemId);
    }
  }

  /** The manage-assets rule admits an asset iff the requester may edit all
      assets, or the requester uploaded it and it is not approved. */
  lemma ManageAssetsAdmits(args: AccessArgs, a: Asset)
    ensures Admits(CanManageAssets(args), AssetItem(a)) <==>
      args.session.Some? &&
      (Permission(EditAllAssets, args) ||
       (a.uploadedBy == Some(args.session.value.itemId) && a.approvalStatus != AssetStatus.Approved))
  {
    var d := CanManageAssets(args);
    if d.Filter? {
      var s := args.session.value;
      var item := AssetItem(a);
      var own := One(UploadedBy, IdIs(s.itemId));
      var unapproved := Where(ApprovalStatus, Not(Equals(Text("approved"))));
      EvalAnd2(own, unapproved, item);
      AssetStatusValueApproved(a.approvalStatus);
      assert item.scalars[ApprovalStatus] == Text(AssetStatusValue(a.approvalStatus));
      assert Holds(Not(Equals(Text("approved"))), Text(AssetStatusValue(a.approvalStatus))) <==> AssetStatusValue(a.approvalStatus) != "approved";
      assert Eval(own, item) <==> a.uploadedBy == Some(s.itemId);
    }
  }

  /** An uploader without `canEditAllAssets` can read, but not manage, their
      own asset once it is approved. */
  lemma ApprovedAssetFrozenForUploader(args: AccessArgs, a: Asset)
    requires args.session.Some? && !Permission(EditAllAssets, args)
    requires a.uploadedBy == Some(args.session.value.itemId) && a.approvalStatus == AssetStatus.Approved
    ensures Admits(CanReadAssets(args), AssetItem(a))
    ensures !Admits(CanManageAssets(args), AssetItem(a))
  {
    ReadAssetsAdmits(args, a);
    ManageAssetsAdmits(args, a);
  }

  /** The read-users rule admits a user iff the requester manages users, or
      it is the requester, or it is in the requester's department. */
  lemma ReadUsersAdmits(args: AccessArgs, u: User)
    ensures Admits(CanReadUsers(args), UserItem(u)) <==>
      args.session.Some? &&
      (Permission(ManageUsers, args) || u.id == args.session.value.itemId ||
       u.department == args.session.value.data.department)
  {
    var d := CanReadUsers(args);
    if d.Filter? {
      var s := args.session.value;
      EvalOr2(IdIs(s.itemId), Where(Department, Equals(Text(s.data.department))), UserItem(u));
    }
  }

  /** The update-users rule admits a user iff the requester manages users or
      it is the requester's own record. */
  lemma UpdateUsersAdmits(args: AccessArgs, u: User)
    ensures Admits(CanUpdateUsers(args), UserItem(u)) <==>
      args.session.Some? && (Permission(ManageUsers, args) || u.id == args.session.value.itemId)
  {
  }

  /** Every user record the update rule admits, the read rule admits too. */
  lemma UpdatableUsersAreReadable(args: AccessArgs, u: User)
    ensures Admits(CanUpdateUsers(args), UserItem(u)) ==> Admits(CanReadUsers(args), UserItem(u))
  {
    UpdateUsersAdmits(args, u);
    ReadUsersAdmits(args, u);
  }

  /** The read-brands rule admits a brand iff the requester manages brands, or
      the brand is active and either global or linked to the requester's
      department. */
  lemma ReadBrandsAdmits(args: AccessArgs, b: Brand)
    ensures Admits(CanReadBrands(args), BrandItem(b)) <==>
      args.session.Some? &&
      (Permission(ManageBrands, args) ||
       (b.isActive && (args.session.value.data.department in b.departments || b.isGlobal)))
  {
    var d := CanReadBrands(args);
    if d.Filter? {
      var s := args.session.value;
      var item := BrandItem(b);
      var linked := SomeOf(Departments, Where(Name, Equals(Text(s.data.department))));
      var global := Where(IsGlobal, Equals(Bool(true)));
      EvalAnd2(Where(IsActive, Equals(Bool(true))), Or([linked, global]), item);
      EvalOr2(linked, global, item);
      LinkedDepartment(s.data.department, b);
    }
  }

  /** The `some` test on a brand's departments holds iff the name is one of
      the brand's department names. */
  lemma LinkedDepartment(dept: string, b: Brand)
    ensures Eval(SomeOf(Departments, Where(Name, Equals(Text(dept)))), BrandItem(b)) <==>
      dept in b.departments
  {
    var related := BrandItem(b).toMany[Departments];
    var test := Where(Name, Equals(Text(dept)));
    if dept in b.departments {
      var i :| 0 <= i < |b.departments| && b.departments[i] == dept;
      assert Eval(test, related[i]);
    }
    if exists i :: 0 <= i < |related| && Eval(test, related[i]) {
      var i :| 0 <= i < |related| && Eval(test, related[i]);
      assert b.departments[i] == dept;
    }
  }

  /** For a requester who does not manage brands: an inactive brand is never
      visible, an active global brand always is, and an active non-global
      brand is visible iff it is linked to the requester's department. */
  lemma BrandVisibilityForNonManagers(args: AccessArgs, b: Brand)
    requires args.session.Some? && !Permission(ManageBrands, args)
    ensures !b.isActive ==> !Admits(CanReadBrands(args), BrandItem(b))
    ensures b.isActive && b.isGlobal ==> Admits(CanReadBrands(args), BrandItem(b))
    ensures b.isActive && !b.isGlobal ==>
      (Admits(CanReadBrands(args), BrandItem(b)) <==> args.session.value.data.department in b.departments)
  {
    ReadBrandsAdmits(args, b);
  }

  // ---------------------------------------------------------------------
  // Audit entries
  // ---------------------------------------------------------------------

  /** Actor context copied into an entry when it is built; the role name is
      absent only in entries of `CreateAuditEntryNullSafe`. */
  datatype AuditMetadata = AuditMetadata(department: string, role: Option<string>)

  datatype AuditEntry = AuditEntry(
    action: string,
    entityType: string,
    entityId: string,
    userId: string,
    userEmail: string,
    timestamp: nat,
    metadata: AuditMetadata)

  /** `null` (no session), an entry, or the failure of reading the name of a
      role that is absent. */
  datatype AuditOutcome = NoEntry | Entry(entry: AuditEntry) | RoleDereferenceError

  /** `auditHelpers.createAuditEntry`, with the clock reading passed as `now`. */
  function CreateAuditEntry(action: string, entityType: string, entityId: string,
                            session: Option<Session>, now: nat): (r: AuditOutcome)
    ensures r == NoEntry <==> session.None?
    ensures r == RoleDereferenceError <==> session.Some? && session.value.data.role.None?
    ensures r.Entry? ==>
      var s := session.value;
      && s.data.role.Some?
      && r.entry.action == action && r.entry.entityType == entityType && r.entry.entityId == entityId
      && r.entry.userId == s.itemId && r.entry.userEmail == s.data.email
      && r.entry.timestamp == now
      && r.entry.metadata == AuditMetadata(s.data.department, Some(s.data.role.value.name))
  {
    match session
    case None => NoEntry
    case Some(s) =>
      match s.data.role
      case None => RoleDereferenceError
      case Some(role) =>
        Entry(AuditEntry(action, entityType, entityId, s.itemId, s.data.email, now,
                         AuditMetadata(s.data.department, Some(role.name))))
  }

  /** An entry records the actor's context, not their capabilities: editing
      any flag of the role leaves the entry the same. */
  lemma AuditEntryIgnoresFlags(action: string, entityType: string, entityId: string,
                               s: Session, role: Role, c: Capability, b: bool, now: nat)
    requires s.data.role == Some(role)
    ensures CreateAuditEntry(action, entityType, entityId, Some(WithRole(s, Some(SetFlag(role, c, b)))), now) ==
            CreateAuditEntry(action, entityType, entityId, Some(s), now)
  {
  }

  /** A signed-in user whose role is not loaded: every capability predicate
      fails closed for them, yet building an audit entry for them fails. */
  lemma AuditEntryFailsWithoutRole(action: string, entityType: string, entityId: string,
                                   s: Session, now: nat)
    requires s.data.role.None?
    ensures forall c :: !Permission(c, AccessArgs(Some(s)))
    ensures CreateAuditEntry(action, entityType, entityId, Some(s), now) == RoleDereferenceError
  {
  }

  /** Audit entries with the role read as optionally as everywhere else in
      this module: `null` exactly without a session, an entry otherwise. */
  function CreateAuditEntryNullSafe(action: string, entityType: string, entityId: string,
                                    session: Option<Session>, now: nat): (r: Option<AuditEntry>)
    ensures r.None? <==> session.None?
    ensures r.Some? ==>
      var s := session.value;
      && r.value.action == action && r.value.entityType == entityType && r.value.entityId == entityId
      && r.value.userId == s.itemId && r.value.userEmail == s.data.email
      && r.value.timestamp == now
      && r.value.metadata.department == s.data.department
      && (r.value.metadata.role.Some? <==> s.data.role.Some?)
      && (s.data.role.Some? ==> r.value.metadata.role == Some(s.data.role.value.name))
  {
    match session
    case None => None
    case Some(s) =>
      Some(AuditEntry(action, entityType, entityId, s.itemId, s.data.email, now,
                      AuditMetadata(s.data.department,
                                    if s.data.role.Some? then Some(s.data.role.value.name) else None)))
  }

  /** The two agree wherever the code as written does not fail; where it
      fails, the null-safe entry is the one without a role name. */
  lemma AuditEntryVersionsAgree(action: string, entityType: string, entityId: string,
                                  session: Option<Session>, now: nat)
    ensures CreateAuditEntry(action, entityType, entityId, session, now) == NoEntry <==>
            CreateAuditEntryNullSafe(action, entityType, entityId, session, now).None?
    ensures forall e :: CreateAuditEntry(action, entityType, entityId, session, now) == Entry(e) <==>
            (CreateAuditEntryNullSafe(action, entityType, entityId, session, now) == Some(e) && e.metadata.role.Some?)
    ensures CreateAuditEntry(action, entityType, entityId, session, now) == RoleDereferenceError <==>
            (CreateAuditEntryNullSafe(action, entityType, entityId, session, now).Some? &&
             CreateAuditEntryNullSafe(action, entityType, entityId, session, now).value.metadata.role.None?)
  {
  }
}
