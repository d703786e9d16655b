/** Values the permission-stripping engine works on: Drive items, pages of a
    listing, permission resources, the requests sent to the Drive API, the two
    audit logs' rows and the persisted run state. */
module Types {

  datatype Option<+T> = None | Some(value: T)

  /** A Drive permission resource, as returned by `permissions().list` with the
      fields `id,type,role,emailAddress`. A field the response leaves out reads
      as the empty string (`perm.get(key, '')`). `kind` is the API's `type`. */
  datatype Permission = Permission(id: string, kind: string, role: string, email: string)

  /** A file or folder, as returned by `files().list` (`id`, `name`). */
  datatype Item = Item(id: string, name: string)

  /** One page of a `files().list` response. */
  datatype Page = Page(items: seq<Item>, nextPageToken: Option<string>)

  /** A request sent to the Drive API. The delete request carries the whole
      permission it targets so that properties can speak about it. */
  datatype Request =
    | ListItems(folders: bool, pageToken: Option<string>)
    | ListPermissions(fileId: string)
    | DeletePermission(fileId: string, permission: Permission)

  /** A row of the removal log: file id, file name, permission type, details. */
  datatype RemovalRecord = RemovalRecord(fileId: string, fileName: string, permissionType: string, details: string)

  /** What went wrong, with the HTTP status of the `HttpError`. */
  datatype Failure =
    | ListFailed(status: int)
    | RemoveFailed(target: string, status: int)

  /** A row of the error log: file id, file name, error. */
  datatype ErrorRecord = ErrorRecord(fileId: string, fileName: string, error: Failure)

  datatype Phase = Files | Folders | Complete

  /** Position of a phase in the order files, folders, complete. */
  function Rank(p: Phase): nat
  {
    match p
    case Files => 0
    case Folders => 1
    case Complete => 2
  }

  /** The persisted run state (the state file's JSON object). */
  datatype Snapshot = Snapshot(
    phase: Phase,
    pageToken: Option<string>,
    filesProcessed: nat,
    permissionsRemoved: nat,
    errors: nat,
    startedAt: string)

  /** Python truthiness of a page token: `None` and `''` are both false. */
  predicate Truthy(t: Option<string>)
  {
    t.Some? && t.value != ""
  }

  function LowerChar(c: char): char
  {
    if 'A' <= c <= 'Z' then (c as int + 32) as char else c
  }

  function UpperChar(c: char): char
  {
    if 'a' <= c <= 'z' then (c as int - 32) as char else c
  }

  /** `str.lower()`, on ASCII letters. */
  function Lower(s: string): (r: string)
    ensures |r| == |s|
    ensures forall i :: 0 <= i < |s| ==> r[i] == LowerChar(s[i])
  {
    if s == [] then [] else [LowerChar(s[0])] + Lower(s[1..])
  }

  /** `str.upper()`, on ASCII letters. */
  function Upper(s: string): (r: string)
    ensures |r| == |s|
    ensures forall i :: 0 <= i < |s| ==> r[i] == UpperChar(s[i])
  {
    if s == [] then [] else [UpperChar(s[0])] + Upper(s[1..])
  }

  /** Two strings that differ only in the case of ASCII letters compare equal
      under `Lower`. */
  lemma {:induction false} LowerIgnoresCase(s: string, t: string)
    requires |s| == |t|
    requires forall i :: 0 <= i < |s| ==> LowerChar(s[i]) == LowerChar(t[i])
    ensures Lower(s) == Lower(t)
  {
    var a, b := Lower(s), Lower(t);
    assert forall i :: 0 <= i < |a| ==> a[i] == b[i];
  }
}
