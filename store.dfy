/** The in-memory record store: four tables (users, complaints, leaves,
    notifications) and the clock that hands out identifiers and timestamps. */
module Store {
  import opened Wrappers
  import opened Documents
  import opened ComplaintModel
  import opened LeaveModel

  datatype Role = Student | Warden

  /** What the handlers read of a user document. */
  datatype Account = Account(name: string, email: string, role: Role)

  /** A notification document's fields; a new notification is unread. */
  datatype NotificationFields = NotificationFields(user: nat, title: string, message: string, read: bool)

  /** The owner fields attached by `populate("user", "name email")`. */
  datatype Contact = Contact(name: string, email: string)

  /** A document with its owner joined in; no owner when the user is gone. */
  datatype Populated<F> = Populated(doc: Doc<F>, owner: Option<Contact>)

  /** The owner join: the name and email of the user with identifier `id`. */
  function OwnerOf(users: seq<Doc<Account>>, id: nat): (r: Option<Contact>)
    ensures r.None? <==> forall k :: 0 <= k < |users| ==> users[k].id != id
    ensures r.Some? ==>
      exists k :: 0 <= k < |users| && users[k].id == id && r.value == Contact(users[k].fields.name, users[k].fields.email)
  {
    var i := FindById(users, id);
    if i == -1 then None else Some(Contact(users[i].fields.name, users[i].fields.email))
  }

  /** Each document of `docs` joined with its owner, in the same order. */
  function Populate<F>(users: seq<Doc<Account>>, docs: seq<Doc<F>>, owner: F -> nat): (r: seq<Populated<F>>)
    ensures |r| == |docs|
    ensures forall k :: 0 <= k < |r| ==> r[k].doc == docs[k] && r[k].owner == OwnerOf(users, owner(docs[k].fields))
    ensures Docs(r) == docs
  {
    seq(|docs|, k requires 0 <= k < |docs| => Populated(docs[k], OwnerOf(users, owner(docs[k].fields))))
  }

  /** The documents of a joined listing. */
  function Docs<F>(ps: seq<Populated<F>>): (r: seq<Doc<F>>)
    ensures |r| == |ps| && forall k :: 0 <= k < |ps| ==> r[k] == ps[k].doc
  {
    seq(|ps|, k requires 0 <= k < |ps| => ps[k].doc)
  }

  /** The recipients of a run of notifications, in order. */
  function UsersOf(ns: seq<Doc<NotificationFields>>): (r: seq<nat>)
    ensures |r| == |ns| && forall k :: 0 <= k < |ns| ==> r[k] == ns[k].fields.user
  {
    seq(|ns|, k requires 0 <= k < |ns| => ns[k].fields.user)
  }

  /** A handler's reply: a success status (200 or 201) with its message and document,
      a 404 with its message, or a 500 carrying the schema paths that failed validation. */
  datatype Response<T> =
    | Reply(code: nat, message: string, body: T)
    | NotFound(message: string)
    | ServerError(invalid: seq<string>)
  {
    function Status(): nat {
      match this
      case Reply(code, _, _) => code
      case NotFound(_) => 404
      case ServerError(_) => 500
    }
  }

  class Database {
    var users: seq<Doc<Account>>
    var complaints: seq<Doc<ComplaintFields>>
    var leaves: seq<Doc<LeaveFields>>
    var notifications: seq<Doc<NotificationFields>>
    var clock: nat

    /** Every table is in insertion order with stamps taken from the clock. */
    ghost predicate Valid()
      reads this
    {
      && Chronological(users, clock)
      && Chronological(complaints, clock)
      && Chronological(leaves, clock)
      && Chronological(notifications, clock)
    }

    /** A store whose user table holds `accounts`, registered in that order. */
    constructor (accounts: seq<Account>)
      ensures Valid()
      ensures |users| == |accounts| && forall k :: 0 <= k < |accounts| ==> users[k] == Inserted(accounts[k], k)
      ensures complaints == [] && leaves == [] && notifications == [] && clock == |accounts|
    {
      users := seq(|accounts|, k requires 0 <= k < |accounts| => Inserted(accounts[k], k));
      complaints, leaves, notifications := [], [], [];
      clock := |accounts|;
    }
  }
}
