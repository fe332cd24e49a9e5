/**
 * The admin workers page: the worker form, its page-access checkboxes, the checks made
 * before saving, and the manual check-in it posts for a worker.
 */
module WorkersPage {
  import opened Wrappers
  import opened Text
  import opened Seqs
  import WorkersRoute
  import AttendanceRoute
  import QrAttendance

  /** The form's state. */
  datatype WorkerForm = WorkerForm(name: string, phone: string, email: string, password: string,
                                   pageAccess: seq<string>, isActive: bool)

  /** `emptyForm`: blank fields, no page access, active. */
  const EmptyForm: WorkerForm := WorkerForm("", "", "", "", [], true)

  const MsgFillRequired: string := "يرجى ملء جميع الحقول المطلوبة"
  const MsgPasswordRequired: string := "يرجى إدخال كلمة المرور"

  /** `openCreate`: the empty form, and no worker being edited. */
  function OpenCreate(): (r: (WorkerForm, Option<WorkersRoute.PublicWorker>))
    ensures r.0.pageAccess == [] && r.0.isActive && r.1.None?
  {
    (EmptyForm, None)
  }

  /** `openEdit(w)`: the worker's fields, with the password left blank. */
  function OpenEdit(w: WorkersRoute.PublicWorker): (f: WorkerForm)
    ensures f.password == ""
    ensures f.name == w.name && f.phone == w.phone && f.email == w.email
    ensures f.pageAccess == w.pageAccess && f.isActive == w.isActive
  {
    WorkerForm(w.name, w.phone, w.email, "", w.pageAccess, w.isActive)
  }

  /** `togglePage(key)`: remove the key when present, append it otherwise. The key's
      membership flips and every other key stays in or out as it was. */
  function TogglePage(access: seq<string>, key: string): (r: seq<string>)
    ensures key in r <==> key !in access
    ensures forall k :: k != key ==> (k in r <==> k in access)
  {
    if key in access then Filter(access, (p: string) => p != key) else access + [key]
  }

  /** The other keys keep their relative order: dropping the toggled key from the result
      gives the list without it. */
  lemma TogglePageKeepsOthers(access: seq<string>, key: string)
    ensures Filter(TogglePage(access, key), (p: string) => p != key) == Filter(access, (p: string) => p != key)
  {
    var other := (p: string) => p != key;
    if key in access {
      var f := Filter(access, other);
      FilterAll(f, other);
    } else {
      FilterAppend(access, [key], other);
      assert Filter([key], other) == [];
      assert Filter(access, other) + [] == Filter(access, other);
    }
  }

  /** Toggling a key twice restores the set of keys, though not always their order. */
  lemma TogglePageTwice(access: seq<string>, key: string)
    ensures forall k :: k in TogglePage(TogglePage(access, key), key) <==> k in access
  {
  }

  /** Order can change: a key toggled off and on again moves to the end. */
  lemma TogglePageTwiceReorders()
    ensures TogglePage(TogglePage(["invoices", "orders"], "invoices"), "invoices") == ["orders", "invoices"]
  {
    var first := TogglePage(["invoices", "orders"], "invoices");
    assert "invoices" in ["invoices", "orders"];
    assert first == ["orders"];
    assert "invoices" !in first;
  }

  /** The checks of `handleSave`: the first message that applies, or none. */
  function SaveError(f: WorkerForm, editing: bool): (r: Option<string>)
    ensures r == Some(MsgFillRequired) <==> Blank(f.name) || Blank(f.phone) || Blank(f.email)
    ensures r == Some(MsgPasswordRequired) <==>
              !(Blank(f.name) || Blank(f.phone) || Blank(f.email)) && !editing && Blank(f.password)
    ensures r.None? || r == Some(MsgFillRequired) || r == Some(MsgPasswordRequired)
  {
    if Blank(f.name) || Blank(f.phone) || Blank(f.email) then Some(MsgFillRequired)
    else if !editing && Blank(f.password) then Some(MsgPasswordRequired)
    else None
  }

  /** The JSON body the page posts: the whole form. */
  function Body(f: WorkerForm): WorkersRoute.WorkerBody {
    WorkersRoute.WorkerBody(Some(f.name), Some(f.phone), Some(f.email), Some(f.password),
                            Some(f.pageAccess), Some(f.isActive))
  }

  /** A non-blank string is not empty. */
  lemma NotBlankNotEmpty(s: string)
    requires !Blank(s)
    ensures s != ""
  {
  }

  /** A new worker the page lets through has every field the route requires, so the
      route decides on the email alone, and stores the form's access list and flag. */
  lemma CreateAcceptedFields(f: WorkerForm, id: string, hash: string -> string)
    requires SaveError(f, false).None?
    ensures WorkersRoute.HasRequired(Body(f))
    ensures WorkersRoute.NewWorker(id, Body(f), hash).pageAccess == f.pageAccess
    ensures WorkersRoute.NewWorker(id, Body(f), hash).isActive == f.isActive
  {
    NotBlankNotEmpty(f.name);
    NotBlankNotEmpty(f.phone);
    NotBlankNotEmpty(f.email);
    NotBlankNotEmpty(f.password);
  }

  /** `markAttendance(worker)`: the worker's id with the method `'manual'` and no token. */
  function MarkAttendanceRequest(w: WorkersRoute.PublicWorker): (req: AttendanceRoute.CheckInRequest)
    ensures req.workerId == w.id && req.qrValue.None? && req.checkMethod == Some("manual")
  {
    AttendanceRoute.CheckInRequest(w.id, None, Some("manual"))
  }

  /** A manual check-in is never token-checked, is recorded under the server's date and
      stored with the method `'manual'`, which the schema accepts. */
  lemma MarkAttendanceIsManual(w: WorkersRoute.PublicWorker, today: string, mac: QrAttendance.Mac)
    ensures var req := MarkAttendanceRequest(w);
            && !AttendanceRoute.IsQr(req.checkMethod)
            && AttendanceRoute.CheckInDate(req, today, mac) == today
            && AttendanceRoute.StoredMethod(req.checkMethod) == "manual"
            && AttendanceRoute.IsSchemaMethod(AttendanceRoute.StoredMethod(req.checkMethod))
  {
  }
}
