# Enterprise CMS authorization layer, in Dafny

This project models the role-based authorization layer of an enterprise
content-management schema, and the decision hooks its list schema attaches
to records. The parts it covers:

- **Sessions and roles.** A `Session` carries the signed-in user's id, email,
  department and an optional `Role`. The role holds a name and seventeen
  independent capability flags.
- **The sign-in gate and the seventeen capability predicates**
  (`permissions.*`). Each predicate is `Access.Permission` applied to one
  constructor of `Access.Capability`.
- **The seven rules** (`rules.*`). Each rule returns `Deny` (`false`),
  `AllowAll` (`true`) or a `Filter` tree. The tree is built from `equals`,
  `not`, `in`, a to-one relation test and a `some` test over a to-many
  relation, joined by `AND`/`OR`. `Filters.Eval` interprets such a tree over
  records. It stands in for the query layer, which this project does not
  model.
- **Audit records** (`auditHelpers.createAuditEntry`).
- **Schema hooks.** These are:
  - the Create/Delete button predicates;
  - the User and Role item-view modes;
  - password field access;
  - Role checkbox defaults;
  - Asset, Content and Question status defaults;
  - the owner hooks that link a new Asset or Content to the session user;
  - the Question hook that stamps `answeredAt`.

Every member is a pure function. The clock is the parameter `now`, a `nat`.

Modules:
- `Wrappers`: the optional value.
- `Filters`: filter trees and their interpreter.
- `Records`: Content, Asset, User and Brand, and how each appears as a filterable item.
- `Access`: `access.ts`.
- `Schema`: the hooks of `schema.ts`.

Notes on the code:
- A role has seventeen flags (access.ts:21-42, schema.ts:200-322).
- `createAuditEntry` fails when the session has no role (access.ts:281); see Findings.
- The read-users rule admits `id = self` as its own clause, beside the
  same-department clause (access.ts:222-225); the model keeps both.
- None of the rules is attached to a list: every list's `access` is
  `allowAll` (for example schema.ts:45). The rules are modelled as a
  standalone policy.

## Model

| member | source | states |
|---|---|---|
| `Access.IsSignedIn` | access.ts:55-57 | signed in exactly when a session is present |
| `Access.PermissionFailsClosed` | access.ts:63-119 | every capability predicate is false without a session or without a role |
| `Access.PermissionIsFlag` | access.ts:63-119 | with a role present, each capability predicate returns exactly that role's flag |
| `Access.PermissionIndependent` | access.ts:63-119 | setting one flag makes its predicate return the new value and leaves every other predicate's result unchanged |
| `Access.CanReadContent` | access.ts:130-150 | `Deny` exactly without a session; `AllowAll` exactly with `canEditAllContent` or `canManageSystem`; otherwise a filter |
| `Access.ReadContentAdmits` | access.ts:139-149 | a content record is admitted iff there is a session and (an elevated flag, or status published, or the requester is the author and the status is draft, review or approved) |
| `Access.ReadContentHidesArchivedAndOthersDrafts` | access.ts:138-148 | without elevated flags, archived content and other users' unpublished content are never admitted |
| `Access.CanManageContent` | access.ts:156-169 | `Deny` exactly without a session; `AllowAll` exactly with `canEditAllContent`, so `canManageSystem` alone does not allow all |
| `Access.ManageContentAdmits` | access.ts:162-168 | a content record is admitted iff there is a session and (`canEditAllContent`, or the requester is the author and it is not published) |
| `Access.PublishedFrozenForNonEditors` | access.ts:163-167 | without `canEditAllContent`, published content is never manageable, even by its author |
| `Access.CanReadAssets` | access.ts:175-190 | `Deny` exactly without a session; `AllowAll` exactly with `canEditAllAssets` or `canManageSystem` |
| `Access.ReadAssetsAdmits` | access.ts:183-189 | an asset is admitted iff there is a session and (an elevated flag, or approved, or uploaded by the requester) |
| `Access.CanManageAssets` | access.ts:195-208 | `Deny` exactly without a session; `AllowAll` exactly with `canEditAllAssets` |
| `Access.ManageAssetsAdmits` | access.ts:201-207 | an asset is admitted iff there is a session and (`canEditAllAssets`, or uploaded by the requester and not approved) |
| `Access.ApprovedAssetFrozenForUploader` | access.ts:179-206 | an uploader without `canEditAllAssets` can read their own approved asset but cannot manage it |
| `Access.CanReadUsers` | access.ts:214-227 | `Deny` exactly without a session; `AllowAll` exactly with `canManageUsers` |
| `Access.ReadUsersAdmits` | access.ts:220-226 | a user record is admitted iff there is a session and (`canManageUsers`, or it is the requester, or it is in the requester's department) |
| `Access.CanUpdateUsers` | access.ts:229-237 | `Deny` exactly without a session; `AllowAll` exactly with `canManageUsers` |
| `Access.UpdateUsersAdmits` | access.ts:235-236 | a user record is admitted iff there is a session and (`canManageUsers`, or it is the requester's own record) |
| `Access.UpdatableUsersAreReadable` | access.ts:214-237 | every user record the update rule admits, the read rule admits too |
| `Access.CanReadBrands` | access.ts:243-261 | `Deny` exactly without a session; `AllowAll` exactly with `canManageBrands` |
| `Access.ReadBrandsAdmits` | access.ts:249-260 | a brand is admitted iff there is a session and (`canManageBrands`, or it is active and either linked to the requester's department or global) |
| `Access.LinkedDepartment` | access.ts:255 | the `some` test on a brand's departments holds iff the department name is among the brand's department names |
| `Access.BrandVisibilityForNonManagers` | access.ts:247-260 | for a non-manager: an inactive brand is never visible, an active global brand always is, an active non-global brand is visible iff it is linked to the requester's department |
| `Access.CreateAuditEntry` | access.ts:269-284 | no entry exactly without a session; failure exactly when the session has no role; otherwise an entry that copies action, entity type and id, the session's user id and email, the clock reading, and the department and role name at call time |
| `Access.AuditEntryIgnoresFlags` | access.ts:272-282 | an entry records the actor's context, not their capabilities: editing any role flag leaves the entry unchanged |
| `Access.AuditEntryFailsWithoutRole` | access.ts:281 | a signed-in user without a role fails every capability predicate, yet building an audit entry for them fails |
| `Access.CreateAuditEntryNullSafe` | access.ts:269-283 | no entry exactly without a session; otherwise an entry whose role name is present exactly when the session has a role |
| `Access.AuditEntryVersionsAgree` | access.ts:270-281 | the null-safe and the as-written construction agree wherever the latter does not fail; it fails exactly where the null-safe entry has no role name |
| `Records.ContentStatusValuePublished` | schema.ts:729-738 | only the published status is stored as `published` |
| `Records.AssetStatusValueApproved` | schema.ts:524-532 | only the approved status is stored as `approved` |
| `Schema.HideButtonsFollowPermissions` | schema.ts:47-48 | Create is hidden iff the list's permission fails: Content needs `canCreateContent`, Asset `canUploadAssets`, Brand `canManageBrands`, User and Role `canManageUsers`, Department, AnalyticsEvent and AuditLog `canManageSystem` (also schema.ts:178-179, 341, 432, 468, 664, 975, 1044); Tag and Question never hide Create; only User and Role hide Delete, iff not `canManageUsers` |
| `Schema.HideButtonsFailClosed` | schema.ts:47-48 | for every list, without a session or a role, exactly the gated Create and Delete buttons are hidden (the gates at schema.ts:47-48, 178-179, 341, 432, 468, 664, 975, 1044) |
| `Schema.HideCreateIgnoresOtherFlags` | schema.ts:47 | for every list, a Create button depends on its own flag only: editing any other flag neither shows nor hides it (the `hideCreate` gates at schema.ts:47, 178, 341, 432, 468, 664, 975, 1044) |
| `Schema.UserFieldMode` | schema.ts:55-59 | `edit` iff `canManageUsers`, or the session user is the item, or there is neither a session nor an item; otherwise `read` |
| `Schema.RoleFieldMode` | schema.ts:185 | `edit` iff `canManageUsers` |
| `Schema.PasswordUpdateAllowed` | schema.ts:80-81 | allowed iff `canManageUsers` or the session user is editing their own record |
| `Schema.PasswordReadAllowed` | schema.ts:79 | reading a password is always denied |
| `Schema.PasswordGateAgreesWithProfileGates` | schema.ts:55-81 | for an existing user, the password may be changed exactly when the item view opens in edit mode, and exactly when the update-users rule admits the record |
| `Schema.FlagDefault` | schema.ts:201-322 | a capability checkbox defaults to true iff it is `canAccessAdminUI` |
| `Schema.NewRoleFlag` | schema.ts:200-322 | each flag of a new Role is the supplied value, or its default when none is supplied |
| `Schema.FreshRoleGrantsOnlyAdminUI` | schema.ts:303-307 | a holder of a Role created with no flags passes the admin-UI predicate and no other capability predicate |
| `Schema.DefaultOwnerOnCreate` | schema.ts:617-623 | with no owner supplied and a session present, the hook links the session user; otherwise it returns what was supplied |
| `Schema.NewAsset` | schema.ts:524-536 | a new Asset's status is the supplied one or `pending`; its uploader is what the owner hook resolves |
| `Schema.NewContent` | schema.ts:786-793 | new Content's status is the supplied one or `draft` (schema.ts:738); its author is what the owner hook resolves |
| `Schema.NewAssetBelongsToUploader` | schema.ts:616-623 | an asset created with neither status nor owner is pending, owned by the session user, and readable and manageable by them |
| `Schema.NewContentBelongsToAuthor` | schema.ts:785-793 | content created with neither status nor author is a draft by the session user, and readable and manageable by them |
| `Schema.ResolveQuestionInput` | schema.ts:958-965 | only `answeredAt` can change; it becomes `now` on a transition into `ANSWERED` (including a create); otherwise the data passes through unchanged |
| `Schema.UpdateIntoAnsweredStamps` | schema.ts:960-962 | an update moving an unanswered question to `ANSWERED` stores `now` as its answer time |
| `Schema.UpdateOtherwiseKeepsAnsweredAt` | schema.ts:960-964 | re-saving an answered question, or an update that does not set `ANSWERED`, leaves the stored answer time as it was and writes the other fields as supplied |
| `Schema.NewQuestion` | schema.ts:920-955 | a question is created iff its text is supplied; `askedAt` defaults to `now` |
| `Schema.CreateQuestionStatus` | schema.ts:932-941 | a question created without a status is `OPEN` and keeps the supplied answer time; one created as `ANSWERED` is stamped with `now` |

## Left out

- The server configuration (keystone.ts) is not part of this model. Its one decision, the admin-UI gate at keystone.ts:235-237, is `Access.Permission(AccessAdminUI, …)`.
- The seed script, the smoke-test script, the admin pages and the navigation component are not part of this model. They are database I/O, a network client and UI rendering.
- The query layer is not modelled. `Filters.Eval` is a stand-in for it. A comparison on a missing field, or a test on an unset relation, admits nothing. The layer's handling of null is not modelled: status fields are required enumerations.
- Explicit `null` in inputs (disconnecting an owner, clearing `answeredAt`) is not distinguished from an absent field.
- The relationship input is modelled only as `connect` by id. Nested `create` inputs are not modelled.
- The `role` field's create/update access on User (schema.ts:106-109) is `Access.Permission(AssignRoles, …)`, so it has no separate member.
- The `updatedAt` hooks (schema.ts:651, 837) are not modelled. They only store the clock reading and make no decision.
- `Schema.NewQuestion`: only the presence of the question text is checked. The model creates a question whose text is the empty string `""`, although `validation: { isRequired: true }` (schema.ts:920-923) also rejects an empty string.
- The question's rich-text `answer` and all other declarative UI settings (columns, sorting, page sizes, field display modes) are not modelled.
- Timestamps are natural numbers. The ISO-string formatting in schema.ts:961 is not modelled.
- The `item` argument of access functions is not part of `Access.AccessArgs`, because no modelled rule reads it.
- Password hashing and session validation are not modelled.
- The snapshot property of audit metadata (later role changes do not alter an entry) holds by value semantics. No lemma states it.

## Findings

| source | as written | input that shows it | evidently intended | confidence | as-written member | corrected member |
|---|---|---|---|---|---|---|
| access.ts:281 | `session.data.role.name` is read without `?.`, although every other member reads the role as `role?` | a session whose `data.role` is absent: `createAuditEntry` fails instead of returning an entry | absent role reads as an absent role name, as everywhere else in the layer (fail closed, no error) | medium, not executed | `Access.AuditEntryFailsWithoutRole` | `Access.CreateAuditEntryNullSafe` |
