/** The records the access rules filter (Content, Asset, User, Brand), reduced
    to the fields the rules look at, and their image as filterable items.
    Status fields are required enumerations whose stored values are the option
    values of the schema's `select` fields. */
module Records {
  import opened Wrappers
  import opened Filters

  /** Content `status` options: draft, review, approved, published, archived. */
  datatype ContentStatus = Draft | InReview | Approved | Published | Archived

  /** Asset `approvalStatus` options: pending, review, approved, rejected, revision. */
  datatype AssetStatus = PendingReview | UnderReview | Approved | Rejected | NeedsRevision

  datatype Content = Content(id: string, status: ContentStatus, author: Option<string>)

  datatype Asset = Asset(id: string, approvalStatus: AssetStatus, uploadedBy: Option<string>)

  datatype User = User(id: string, department: string)

  /** A brand with the names of the departments it is linked to. */
  datatype Brand = Brand(id: string, isActive: bool, isGlobal: bool, departments: seq<string>)

  function ContentStatusValue(s: ContentStatus): string
  {
    match s
    case Draft => "draft"
    case InReview => "review"
    case Approved => "approved"
    case Published => "published"
    case Archived => "archived"
  }

  function AssetStatusValue(s: AssetStatus): string
  {
    match s
    case PendingReview => "pending"
    case UnderReview => "review"
    case Approved => "approved"
    case Rejected => "rejected"
    case NeedsRevision => "revision"
  }

  /** Only the published status is stored as "published". */
  lemma ContentStatusValuePublished(s: ContentStatus)
    ensures ContentStatusValue(s) == "published" <==> s == Published
  {
  }

  /** Only the approved status is stored as "approved". */
  lemma AssetStatusValueApproved(s: AssetStatus)
    ensures AssetStatusValue(s) == "approved" <==> s == AssetStatus.Approved
  {
  }

  /** A related user as seen through a relation: only its id. */
  function UserRef(id: string): Item
  {
    Item(map[Id := Text(id)], map[], map[])
  }

  /** An unset relation is absent from the item. */
  function OwnerRelation(rel: Relation, owner: Option<string>): map<Relation, Item>
  {
    match owner
    case None => map[]
    case Some(id) => map[rel := UserRef(id)]
  }

  function ContentItem(c: Content): Item
  {
    Item(map[Id := Text(c.id), Status := Text(ContentStatusValue(c.status))],
         OwnerRelation(Author, c.author), map[])
  }

  function AssetItem(a: Asset): Item
  {
    Item(map[Id := Text(a.id), ApprovalStatus := Text(AssetStatusValue(a.approvalStatus))],
         OwnerRelation(UploadedBy, a.uploadedBy), map[])
  }

  function UserItem(u: User): Item
  {
    Item(map[Id := Text(u.id), Department := Text(u.department)], map[], map[])
  }

  function DepartmentItem(name: string): Item
  {
    Item(map[Name := Text(name)], map[], map[])
  }

  function BrandItem(b: Brand): Item
  {
    Item(map[Id := Text(b.id), IsActive := Bool(b.isActive), IsGlobal := Bool(b.isGlobal)],
         map[], map[Departments := seq(|b.departments|, i requires 0 <= i < |b.departments| => DepartmentItem(b.departments[i]))])
  }
}
