/** The decision hooks of the list schema: which Create and Delete buttons
    are hidden, which item views open in edit mode, who may change a password,
    the defaults a new Role, Asset, Content or Question receives, the owner a
    new Asset or Content is given, and the stamping of a question's answer
    time. The current time is the parameter `now`. */
module Schema {
  import opened Wrappers
  import opened Records
  import opened Access

  // ---------------------------------------------------------------------
  // Create / Delete buttons
  // ---------------------------------------------------------------------

  /** The lists of the schema. */
  datatype ListKey =
    | UserList | RoleList | BrandList | DepartmentList | AssetList
    | ContentList | TagList | QuestionList | AnalyticsEventList | AuditLogList

  /** The capability whose absence hides a list's Create button; `None` for
      the lists that configure no `hideCreate`. */
  function CreateGate(l: ListKey): Option<Capability>
  {
    match l
    case UserList => Some(ManageUsers)
    case RoleList => Some(ManageUsers)
    case BrandList => Some(ManageBrands)
    case DepartmentList => Some(ManageSystem)
    case AssetList => Some(UploadAssets)
    case ContentList => Some(CreateContent)
    case AnalyticsEventList => Some(ManageSystem)
    case AuditLogList => Some(ManageSystem)
    case TagList => None
    case QuestionList => None
  }

  /** The capability whose absence hides a list's Delete button; only User
      and Role configure `hideDelete`. */
  function DeleteGate(l: ListKey): Option<Capability>
  {
    match l
    case UserList => Some(ManageUsers)
    case RoleList => Some(ManageUsers)
    case _ => None
  }

  /** `ui.hideCreate`: the negation of the list's gating permission; a list
      without one never hides Create. */
  function HideCreate(l: ListKey, args: AccessArgs): bool
  {
    match CreateGate(l)
    case None => false
    case Some(c) => !Permission(c, args)
  }

  /** `ui.hideDelete`. */
  function HideDelete(l: ListKey, args: AccessArgs): bool
  {
    match DeleteGate(l)
    case None => false
    case Some(c) => !Permission(c, args)
  }

  /** Which permission each Create and Delete button follows. */
  lemma HideButtonsFollowPermissions(args: AccessArgs)
    ensures HideCreate(ContentList, args) <==> !Permission(CreateContent, args)
    ensures HideCreate(AssetList, args) <==> !Permission(UploadAssets, args)
    ensures HideCreate(BrandList, args) <==> !Permission(ManageBrands, args)
    ensures HideCreate(UserList, args) <==> !Permission(ManageUsers, args)
    ensures HideCreate(RoleList, args) <==> !Permission(ManageUsers, args)
    ensures HideCreate(DepartmentList, args) <==> !Permission(ManageSystem, args)
    ensures HideCreate(AnalyticsEventList, args) <==> !Permission(ManageSystem, args)
    ensures HideCreate(AuditLogList, args) <==> !Permission(ManageSystem, args)
    ensures !HideCreate(TagList, args) && !HideCreate(QuestionList, args)
    ensures HideDelete(UserList, args) <==> !Permission(ManageUsers, args)
    ensures HideDelete(RoleList, args) <==> !Permission(ManageUsers, args)
    ensures forall l :: l != UserList && l != RoleList ==> !HideDelete(l, args)
  {
  }

  /** Without a session or a role, every gated button is hidden. */
  lemma HideButtonsFailClosed(l: ListKey, args: AccessArgs)
    requires args.session.None? || args.session.value.data.role.None?
    ensures HideCreate(l, args) <==> CreateGate(l).Some?
    ensures HideDelete(l, args) <==> DeleteGate(l).Some?
  {
  }

  /** A button depends on one flag only: editing any other flag of the role
      never shows or hides it. In particular `canManageSystem` does not show
      the Content, Asset, Brand, User or Role Create buttons. */
  lemma HideCreateIgnoresOtherFlags(l: ListKey, s: Session, role: Role, c: Capability, b: bool)
    requires s.data.role == Some(role)
    requires CreateGate(l) != Some(c)
    ensures HideCreate(l, AccessArgs(Some(WithRole(s, Some(SetFlag(role, c, b)))))) ==
            HideCreate(l, AccessArgs(Some(s)))
  {
    if CreateGate(l).Some? {
      SetFlagKeepsOthers(role, c, b, CreateGate(l).value);
    }
  }

  // ---------------------------------------------------------------------
  // Item views and password access
  // ---------------------------------------------------------------------

  datatype FieldMode = Edit | Read

  /** The id of the session user, or absent (`session?.itemId`). */
  function SessionUserId(session: Option<Session>): Option<string>
  {
    match session
    case None => None
    case Some(s) => Some(s.itemId)
  }

  /** The User list's `itemView.defaultFieldMode`. The comparison is between
      two optional ids, so with neither a session nor an item it also yields
      `Edit`. */
  function UserFieldMode(session: Option<Session>, item: Option<User>): (m: FieldMode)
    ensures m == Edit <==>
      Permission(ManageUsers, AccessArgs(session)) ||
      (session.Some? && item.Some? && session.value.itemId == item.value.id) ||
      (session.None? && item.None?)
  {
    if Permission(ManageUsers, AccessArgs(session)) then Edit
    else if SessionUserId(session) == (if item.Some? then Some(item.value.id) else None) then Edit
    else Read
  }

  /** The Role list's `itemView.defaultFieldMode`. */
  function RoleFieldMode(args: AccessArgs): (m: FieldMode)
    ensures m == Edit <==> Permission(ManageUsers, args)
  {
    if Permission(ManageUsers, args) then Edit else Read
  }

  /** The password field's `access.update`: user managers, or the user
      editing their own record. */
  function PasswordUpdateAllowed(session: Option<Session>, item: User): (ok: bool)
    ensures ok <==> Permission(ManageUsers, AccessArgs(session)) ||
                    (session.Some? && session.value.itemId == item.id)
  {
    Permission(ManageUsers, AccessArgs(session)) || SessionUserId(session) == Some(item.id)
  }

  /** The password field's `access.read` (`denyAll`). */
  function PasswordReadAllowed(args: AccessArgs): (ok: bool)
    ensures !ok
  {
    false
  }

  /** Self-or-admin, three times over: for an existing user record, the
      password may be changed exactly when the item view opens in edit mode,
      and exactly when the update-users rule admits that record. */
  lemma PasswordGateAgreesWithProfileGates(session: Option<Session>, u: User)
    ensures PasswordUpdateAllowed(session, u) <==> UserFieldMode(session, Some(u)) == Edit
    ensures PasswordUpdateAllowed(session, u) <==> Admits(CanUpdateUsers(AccessArgs(session)), UserItem(u))
  {
    UpdateUsersAdmits(AccessArgs(session), u);
  }

  // ---------------------------------------------------------------------
  // Role defaults
  // ---------------------------------------------------------------------

  /** The checkbox default of each capability of a new Role: deny, except
      access to the admin UI. */
  function FlagDefault(c: Capability): (b: bool)
    ensures b <==> c == AccessAdminUI
  {
    match c
    case AccessAdminUI => true
    case _ => false
  }

  /** A supplied checkbox value, or its default. */
  function FlagOnCreate(input: map<Capability, bool>, c: Capability): bool
  {
    if c in input then input[c] else FlagDefault(c)
  }

  /** Creating a Role from the flags an administrator supplied. */
  function NewRole(id: string, name: string, input: map<Capability, bool>): (r: Role)
    ensures r.id == id && r.name == name
  {
    Role(
      id,
      name,
      FlagOnCreate(input, CreateContent),
      FlagOnCreate(input, EditAllContent),
      FlagOnCreate(input, PublishContent),
      FlagOnCreate(input, DeleteContent),
      FlagOnCreate(input, UploadAssets),
      FlagOnCreate(input, EditAllAssets),
      FlagOnCreate(input, ApproveAssets),
      FlagOnCreate(input, DeleteAssets),
      FlagOnCreate(input, ManageBrands),
      FlagOnCreate(input, EditBrandGuidelines),
      FlagOnCreate(input, ApproveForBrand),
      FlagOnCreate(input, ManageUsers),
      FlagOnCreate(input, AssignRoles),
      FlagOnCreate(input, ViewAnalytics),
      FlagOnCreate(input, AccessAdminUI),
      FlagOnCreate(input, ManageSystem),
      FlagOnCreate(input, ViewAuditLogs))
  }

  /** Each flag of a new Role is the supplied value, or its default. */
  lemma NewRoleFlag(id: string, name: string, input: map<Capability, bool>, c: Capability)
    ensures Flag(NewRole(id, name, input), c) == (if c in input then input[c] else FlagDefault(c))
  {
  }

  /** A Role created with no flags supplied grants exactly one capability,
      access to the admin UI: a user holding it passes that gate and no
      other predicate. */
  lemma FreshRoleGrantsOnlyAdminUI(s: Session, id: string, name: string, c: Capability)
    requires s.data.role == Some(NewRole(id, name, map[]))
    ensures Permission(c, AccessArgs(Some(s))) <==> c == AccessAdminUI
  {
    NewRoleFlag(id, name, map[], c);
  }

  // ---------------------------------------------------------------------
  // Owner hooks and status defaults of Asset and Content
  // ---------------------------------------------------------------------

  /** A relationship input naming the record to link (`{ connect: { id } }`). */
  datatype RelationInput = Connect(id: string)

  /** The `resolveInput.create` hook of `uploadedBy` and of `author`: with no
      owner supplied and a session present, link the session user; otherwise
      keep what was supplied. */
  function DefaultOwnerOnCreate(supplied: Option<RelationInput>, session: Option<Session>): (r: Option<RelationInput>)
    ensures supplied.None? && session.Some? ==> r == Some(Connect(session.value.itemId))
    ensures supplied.Some? || session.None? ==> r == supplied
  {
    if supplied.None? && session.Some? then Some(Connect(session.value.itemId)) else supplied
  }

  function LinkedId(r: Option<RelationInput>): Option<string>
  {
    match r
    case None => None
    case Some(Connect(id)) => Some(id)
  }

  /** The fields of an Asset create input that the model follows. */
  datatype AssetInput = AssetInput(approvalStatus: Option<AssetStatus>, uploadedBy: Option<RelationInput>)

  /** The fields of a Content create input that the model follows. */
  datatype ContentInput = ContentInput(status: Option<ContentStatus>, author: Option<RelationInput>)

  /** A new Asset: `approvalStatus` defaults to pending, `uploadedBy` goes
      through the owner hook. */
  function NewAsset(id: string, input: AssetInput, session: Option<Session>): (a: Asset)
    ensures a.id == id
    ensures a.approvalStatus == input.approvalStatus.GetOr(PendingReview)
    ensures a.uploadedBy == LinkedId(DefaultOwnerOnCreate(input.uploadedBy, session))
  {
    Asset(id, input.approvalStatus.GetOr(PendingReview), LinkedId(DefaultOwnerOnCreate(input.uploadedBy, session)))
  }

  /** A new Content: `status` defaults to draft, `author` goes through the
      owner hook. */
  function NewContent(id: string, input: ContentInput, session: Option<Session>): (c: Content)
    ensures c.id == id
    ensures c.status == input.status.GetOr(Draft)
    ensures c.author == LinkedId(DefaultOwnerOnCreate(input.author, session))
  {
    Content(id, input.status.GetOr(Draft), LinkedId(DefaultOwnerOnCreate(input.author, session)))
  }

  /** An asset uploaded with neither status nor owner starts pending and owned
      by the uploader, who can then both read and manage it. */
  lemma NewAssetBelongsToUploader(id: string, session: Session)
    ensures NewAsset(id, AssetInput(None, None), Some(session)) == Asset(id, PendingReview, Some(session.itemId))
    ensures Admits(CanReadAssets(AccessArgs(Some(session))), AssetItem(NewAsset(id, AssetInput(None, None), Some(session))))
    ensures Admits(CanManageAssets(AccessArgs(Some(session))), AssetItem(NewAsset(id, AssetInput(None, None), Some(session))))
  {
    var a := NewAsset(id, AssetInput(None, None), Some(session));
    ReadAssetsAdmits(AccessArgs(Some(session)), a);
    ManageAssetsAdmits(AccessArgs(Some(session)), a);
  }

  /** Content written with neither status nor author starts as a draft by the
      writer, who can then both read and manage it. */
  lemma NewContentBelongsToAuthor(id: string, session: Session)
    ensures NewContent(id, ContentInput(None, None), Some(session)) == Content(id, Draft, Some(session.itemId))
    ensures Admits(CanReadContent(AccessArgs(Some(session))), ContentItem(NewContent(id, ContentInput(None, None), Some(session))))
    ensures Admits(CanManageContent(AccessArgs(Some(session))), ContentItem(NewContent(id, ContentInput(None, None), Some(session))))
  {
    var c := NewContent(id, ContentInput(None, None), Some(session));
    ReadContentAdmits(AccessArgs(Some(session)), c);
    ManageContentAdmits(AccessArgs(Some(session)), c);
  }

  // ---------------------------------------------------------------------
  // Questions
  // ---------------------------------------------------------------------

  datatype QuestionStatus = Open | Answered | Deferred

  /** A stored question (the rich-text answer is not modelled). */
  datatype Question = Question(
    id: string,
    question: string,
    status: QuestionStatus,
    askedBy: Option<string>,
    askedAt: nat,
    answeredAt: Option<nat>)

  /** The resolved data of a create or update: only the supplied fields are
      present. */
  datatype QuestionData = QuestionData(
    question: Option<string>,
    status: Option<QuestionStatus>,
    askedBy: Option<string>,
    askedAt: Option<nat>,
    answeredAt: Option<nat>)

  /** The data sets the status to answered while the stored item (absent on a
      create) is not answered. */
  predicate BecomesAnswered(data: QuestionData, item: Option<Question>)
  {
    data.status == Some(Answered) && (item.None? || item.value.status != Answered)
  }

  /** The Question list's `hooks.resolveInput`: stamp `answeredAt` with `now`
      on a transition into answered; pass the data through otherwise. */
  function ResolveQuestionInput(data: QuestionData, item: Option<Question>, now: nat): (r: QuestionData)
    ensures r.(answeredAt := data.answeredAt) == data
    ensures BecomesAnswered(data, item) ==> r.answeredAt == Some(now)
    ensures !BecomesAnswered(data, item) ==> r == data
  {
    if BecomesAnswered(data, item) then data.(answeredAt := Some(now)) else data
  }

  /** How an update's resolved data is written over the stored question: a
      supplied field replaces the stored one. */
  function ApplyUpdate(item: Question, data: QuestionData): Question
  {
    Question(
      item.id,
      data.question.GetOr(item.question),
      data.status.GetOr(item.status),
      if data.askedBy.Some? then data.askedBy else item.askedBy,
      data.askedAt.GetOr(item.askedAt),
      if data.answeredAt.Some? then data.answeredAt else item.answeredAt)
  }

  /** Updating a stored question through the hook. */
  function UpdateQuestion(item: Question, data: QuestionData, now: nat): Question
  {
    ApplyUpdate(item, ResolveQuestionInput(data, Some(item), now))
  }

  /** Creating a question: `question` is required, `status` defaults to open
      and `askedAt` to `now`; the defaults are resolved before the hook runs. */
  function NewQuestion(id: string, data: QuestionData, now: nat): (q: Option<Question>)
    ensures q.None? <==> data.question.None?
    ensures q.Some? ==> q.value.id == id && q.value.question == data.question.value &&
                        q.value.askedBy == data.askedBy && q.value.askedAt == data.askedAt.GetOr(now)
  {
    match data.question
    case None => None
    case Some(text) =>
      var resolved := ResolveQuestionInput(data.(status := Some(data.status.GetOr(Open)), askedAt := Some(data.askedAt.GetOr(now))), None, now);
      Some(Question(id, text, resolved.status.value, resolved.askedBy, resolved.askedAt.value, resolved.answeredAt))
  }

  /** An update that moves an unanswered question to answered records `now`
      as its answer time. */
  lemma UpdateIntoAnsweredStamps(item: Question, data: QuestionData, now: nat)
    requires data.status == Some(Answered) && item.status != Answered
    ensures UpdateQuestion(item, data, now).status == Answered
    ensures UpdateQuestion(item, data, now).answeredAt == Some(now)
  {
  }

  /** Re-saving an answered question, or an update that does not set the
      status to answered, never changes the stored answer time unless the
      update supplies one itself; every other field is written as supplied. */
  lemma UpdateOtherwiseKeepsAnsweredAt(item: Question, data: QuestionData, now: nat)
    requires item.status == Answered || data.status != Some(Answered)
    requires data.answeredAt.None?
    ensures UpdateQuestion(item, data, now) == ApplyUpdate(item, data)
    ensures UpdateQuestion(item, data, now).answeredAt == item.answeredAt
  {
  }

  /** A question created without a status is open and keeps the answer time
      it was given (none, unless supplied); one created as answered is stamped
      with `now`. */
  lemma CreateQuestionStatus(id: string, data: QuestionData, now: nat)
    requires data.question.Some?
    ensures data.status.None? ==>
      NewQuestion(id, data, now).value.status == Open &&
      NewQuestion(id, data, now).value.answeredAt == data.answeredAt
    ensures data.status == Some(Answered) ==>
      NewQuestion(id, data, now).value.status == Answered &&
      NewQuestion(id, data, now).value.answeredAt == Some(now)
    ensures data.status == Some(Deferred) ==>
      NewQuestion(id, data, now).value.answeredAt == data.answeredAt
  {
  }
}
