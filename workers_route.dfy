/**
 * The workers API route: `POST` registers a worker after checking the required fields
 * and that the email is not taken; `GET` lists the workers without their passwords,
 * newest first. Password hashing is a parameter; document ids are supplied by the
 * caller.
 */
module WorkersRoute {
  import opened Wrappers
  import opened Seqs
  import Customers

  /** A stored worker document. */
  datatype Worker = Worker(id: string, name: string, phone: string, email: string,
                           password: string, pageAccess: seq<string>, isActive: bool)

  /** The same document without its password, as `GET` and `POST` return it. */
  datatype PublicWorker = PublicWorker(id: string, name: string, phone: string, email: string,
                                       pageAccess: seq<string>, isActive: bool)

  /** The JSON body; `None` is a missing field. */
  datatype WorkerBody = WorkerBody(name: Option<string>, phone: Option<string>, email: Option<string>,
                                   password: Option<string>, pageAccess: Option<seq<string>>,
                                   isActive: Option<bool>)

  datatype Response = Created(worker: PublicWorker) | Failed(status: nat, error: string)

  const MsgFieldsRequired: string := "جميع الحقول مطلوبة"
  const MsgEmailTaken: string := "البريد الإلكتروني مستخدم بالفعل"

  function Public(w: Worker): (p: PublicWorker)
    ensures p.id == w.id && p.name == w.name && p.phone == w.phone && p.email == w.email
    ensures p.pageAccess == w.pageAccess && p.isActive == w.isActive
  {
    PublicWorker(w.id, w.name, w.phone, w.email, w.pageAccess, w.isActive)
  }

  function PublicAll(ws: seq<Worker>): (r: seq<PublicWorker>)
    ensures |r| == |ws|
    ensures forall i :: 0 <= i < |ws| ==> r[i] == Public(ws[i])
  {
    if ws == [] then [] else [Public(ws[0])] + PublicAll(ws[1..])
  }

  /** `GET /api/workers`: every worker without the password, newest first. */
  function Listing(ws: seq<Worker>): (r: seq<PublicWorker>)
    ensures |r| == |ws|
    ensures forall i :: 0 <= i < |ws| ==> r[i] == Public(ws[|ws| - 1 - i])
  {
    Reverse(PublicAll(ws))
  }

  /** `!name || !phone || !email || !password` */
  predicate HasRequired(b: WorkerBody) {
    Customers.Truthy(b.name) && Customers.Truthy(b.phone) && Customers.Truthy(b.email)
    && Customers.Truthy(b.password)
  }

  predicate EmailTaken(ws: seq<Worker>, email: string) {
    exists i :: 0 <= i < |ws| && ws[i].email == email
  }

  /** The schema's unique index on `email`. */
  predicate UniqueEmails(ws: seq<Worker>) {
    forall i, j :: 0 <= i < j < |ws| ==> ws[i].email != ws[j].email
  }

  /** The document `Worker.create` stores: the hashed password, no access by default, and
      active unless the body says otherwise. */
  function NewWorker(id: string, b: WorkerBody, hash: string -> string): (w: Worker)
    requires HasRequired(b)
    ensures w.password == hash(b.password.value)
    ensures b.pageAccess.None? ==> w.pageAccess == []
    ensures b.isActive.None? ==> w.isActive
    ensures b.isActive.Some? ==> w.isActive == b.isActive.value
  {
    Worker(id, b.name.value, b.phone.value, b.email.value, hash(b.password.value),
           if b.pageAccess.Some? then b.pageAccess.value else [],
           if b.isActive.Some? then b.isActive.value else true)
  }

  class WorkerRegistry {
    var workers: seq<Worker>

    ghost predicate Valid()
      reads this
    {
      UniqueEmails(workers)
    }

    constructor()
      ensures Valid() && workers == []
    {
      workers := [];
    }

    /** `Worker.findOne({ email })` as a scan. */
    method FindByEmail(email: string) returns (found: bool)
      ensures found <==> EmailTaken(workers, email)
    {
      var i := 0;
      while i < |workers|
        invariant 0 <= i <= |workers|
        invariant forall k :: 0 <= k < i ==> workers[k].email != email
      {
        if workers[i].email == email {
          return true;
        }
        i := i + 1;
      }
      return false;
    }

    /** `POST /api/workers`. `id` is the new document's id and `hash` the password
        hashing. */
    method Post(b: WorkerBody, id: string, hash: string -> string) returns (resp: Response)
      requires Valid()
      modifies this
      ensures Valid()
      ensures !HasRequired(b) ==> resp == Failed(400, MsgFieldsRequired) && workers == old(workers)
      ensures HasRequired(b) && EmailTaken(old(workers), b.email.value) ==>
                resp == Failed(400, MsgEmailTaken) && workers == old(workers)
      ensures HasRequired(b) && !EmailTaken(old(workers), b.email.value) ==>
                && workers == old(workers) + [NewWorker(id, b, hash)]
                && resp == Created(Public(NewWorker(id, b, hash)))
    {
      if !HasRequired(b) {
        return Failed(400, MsgFieldsRequired);
      }
      var existing := FindByEmail(b.email.value);
      if existing {
        return Failed(400, MsgEmailTaken);
      }
      var w := NewWorker(id, b, hash);
      workers := workers + [w];
      resp := Created(Public(w));
    }
  }

  /** After a successful registration the listing opens with the new worker, and the
      rest is the previous listing. */
  lemma ListingAfterCreate(ws: seq<Worker>, w: Worker)
    ensures Listing(ws + [w]) == [Public(w)] + Listing(ws)
  {
    var all := PublicAll(ws + [w]);
    assert all == PublicAll(ws) + [Public(w)];
    ReverseSnoc(PublicAll(ws), Public(w));
  }

  /** Registering twice with one email creates one worker: the second call is refused. */
  method RegisterTwice(reg: WorkerRegistry, b: WorkerBody, id1: string, id2: string, hash: string -> string)
    returns (first: Response, second: Response)
    requires reg.Valid() && HasRequired(b)
    modifies reg
    ensures second == Failed(400, MsgEmailTaken)
    ensures |reg.workers| <= |old(reg.workers)| + 1
  {
    first := reg.Post(b, id1, hash);
    assert EmailTaken(reg.workers, b.email.value) by {
      if first.Created? {
        assert reg.workers[|reg.workers| - 1].email == b.email.value;
      }
    }
    second := reg.Post(b, id2, hash);
  }
}
