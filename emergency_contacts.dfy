/**
 * The `useEmergencyContacts` hook: the signed-in user's emergency contacts,
 * loaded by a query and kept in step with add, update and delete.
 */
module EmergencyContacts {
  import opened Wrappers
  import opened Seqs

  datatype Contact = Contact(id: string, userId: string, name: string, phone: string,
                             email: Option<string>, relationship: string, isPrimary: bool)

  /** The fields the caller supplies for a new contact; the hook adds the user id. */
  datatype NewContact = NewContact(name: string, phone: string, email: Option<string>,
                                   relationship: string, isPrimary: bool)

  /** What the database gives back for one request. */
  datatype DbReply<T> = Returned(data: T) | DbError

  /** What an operation returns to its caller. */
  datatype Outcome<T> = Saved(data: T) | NoUser | Failed

  /** The toast each operation raises. */
  datatype Toast = Success(message: string) | Error(message: string)

  /** The query `fetchContacts` issues: one user's rows, primary contacts first. */
  datatype ContactQuery = ContactQuery(userId: string, primaryFirst: bool)

  /** Primary contacts come before the others. */
  predicate PrimaryFirst(xs: seq<Contact>) {
    forall i, j :: 0 <= i < j < |xs| && xs[j].isPrimary ==> xs[i].isPrimary
  }

  predicate OwnedBy(xs: seq<Contact>, userId: string) {
    forall k :: 0 <= k < |xs| ==> xs[k].userId == userId
  }

  /** Rows that the database may return for the query. */
  predicate Answers(q: ContactQuery, rows: seq<Contact>) {
    OwnedBy(rows, q.userId) && (q.primaryFirst ==> PrimaryFirst(rows))
  }

  /** `contacts.map(c => c.id === id ? data : c)`. */
  function ReplaceById(xs: seq<Contact>, id: string, data: Contact): (r: seq<Contact>)
    ensures |r| == |xs|
    ensures forall k :: 0 <= k < |xs| ==> r[k] == if xs[k].id == id then data else xs[k]
  {
    seq(|xs|, k requires 0 <= k < |xs| => if xs[k].id == id then data else xs[k])
  }

  /** `contacts.filter(c => c.id !== id)`. */
  function RemoveById(xs: seq<Contact>, id: string): (r: seq<Contact>)
  {
    Filter(xs, (c: Contact) => c.id != id)
  }

  /** Deleting removes exactly the contacts with that id and keeps the others, in order. */
  lemma RemoveByIdExact(xs: seq<Contact>, id: string, c: Contact)
    ensures c in RemoveById(xs, id) <==> c in xs && c.id != id
    ensures forall k :: 0 <= k < |RemoveById(xs, id)| ==> RemoveById(xs, id)[k].id != id
    ensures RemoveById(xs + [c], id) == RemoveById(xs, id) + (if c.id == id then [] else [c])
  {
    var p := (x: Contact) => x.id != id;
    FilterMember(xs, p, c);
    FilterAppend(xs, [c], p);
    assert Filter([c], p) == if c.id == id then [] else [c];
  }

  /** An id that no contact has is not affected by deleting: deleting an absent id changes nothing. */
  lemma RemoveAbsentId(xs: seq<Contact>, id: string)
    requires forall k :: 0 <= k < |xs| ==> xs[k].id != id
    ensures RemoveById(xs, id) == xs
  {
    FilterKeepsAll(xs, (x: Contact) => x.id != id);
  }

  /** Deleting a contact just added, under an id no other contact has, gives back the list before. */
  lemma AddThenDelete(xs: seq<Contact>, c: Contact)
    requires forall k :: 0 <= k < |xs| ==> xs[k].id != c.id
    ensures RemoveById(xs + [c], c.id) == xs
  {
    RemoveByIdExact(xs, c.id, c);
    RemoveAbsentId(xs, c.id);
  }

  /** Replacing touches exactly the contacts with that id and keeps the order of the list. */
  lemma ReplaceAbsentId(xs: seq<Contact>, id: string, data: Contact)
    requires forall k :: 0 <= k < |xs| ==> xs[k].id != id
    ensures ReplaceById(xs, id, data) == xs
  {
  }

  /** The hook's state. */
  class ContactBook {
    var user: Option<string>
    var contacts: seq<Contact>
    var loading: bool

    constructor (user: Option<string>)
      ensures this.user == user && contacts == [] && loading
    {
      this.user := user;
      contacts := [];
      loading := true;
    }

    /**
     * `fetchContacts`: without a user nothing happens.  Otherwise the rows
     * (or `[]` for `null`) replace the list, an error keeps it and raises a
     * toast, and loading ends either way.
     */
    method Fetch(reply: DbReply<Option<seq<Contact>>>) returns (issued: Option<ContactQuery>, toast: Option<Toast>)
      modifies this
      ensures issued.Some? <==> old(user).Some?
      ensures issued.Some? ==> user.Some? && issued.value == ContactQuery(user.value, true)
      ensures user == old(user)
      ensures issued.Some? && user.Some? && reply.Returned? && reply.data.Some? && Answers(issued.value, reply.data.value) ==>
                OwnedBy(contacts, user.value) && PrimaryFirst(contacts)
      ensures issued.None? ==> contacts == old(contacts) && loading == old(loading) && toast.None?
      ensures issued.Some? && reply.Returned? ==> contacts == reply.data.GetOr([]) && toast.None? && !loading
      ensures issued.Some? && reply.DbError? ==>
                contacts == old(contacts) && toast == Some(Error("Failed to load emergency contacts")) && !loading
    {
      if user.None? {
        return None, None;
      }
      issued := Some(ContactQuery(user.value, true));
      toast := None;
      match reply {
        case Returned(rows) => contacts := rows.GetOr([]);
        case DbError => toast := Some(Error("Failed to load emergency contacts"));
      }
      loading := false;
    }

    /**
     * `addContact`: without a user the result is the "No user logged in"
     * error and no row is sent; otherwise `sent` is the inserted row with the
     * user's id, and the returned contact goes to the end of the list.
     */
    method AddContact(c: NewContact, reply: DbReply<Contact>)
      returns (outcome: Outcome<Contact>, sent: Option<(NewContact, string)>, toast: Option<Toast>)
      modifies this
      ensures user == old(user) && loading == old(loading)
      ensures old(user).None? ==> outcome == NoUser && sent.None? && toast.None? && contacts == old(contacts)
      ensures old(user).Some? ==> sent == Some((c, old(user).value))
      ensures old(user).Some? && reply.Returned? ==>
                && contacts == old(contacts) + [reply.data]
                && outcome == Saved(reply.data)
                && toast == Some(Success("Emergency contact added"))
      ensures old(user).Some? && reply.DbError? ==>
                contacts == old(contacts) && outcome == Failed && toast == Some(Error("Failed to add emergency contact"))
    {
      if user.None? {
        return NoUser, None, None;
      }
      sent := Some((c, user.value));
      match reply {
        case Returned(row) =>
          contacts := contacts + [row];
          outcome := Saved(row);
          toast := Some(Success("Emergency contact added"));
        case DbError =>
          outcome := Failed;
          toast := Some(Error("Failed to add emergency contact"));
      }
    }

    /** `updateContact`: the returned row replaces the contacts with that id. */
    method UpdateContact(id: string, reply: DbReply<Contact>) returns (outcome: Outcome<Contact>, toast: Toast)
      modifies this
      ensures user == old(user) && loading == old(loading)
      ensures reply.Returned? ==>
                && contacts == ReplaceById(old(contacts), id, reply.data)
                && outcome == Saved(reply.data) && toast == Success("Emergency contact updated")
      ensures reply.DbError? ==>
                contacts == old(contacts) && outcome == Failed && toast == Error("Failed to update emergency contact")
    {
      match reply {
        case Returned(row) =>
          contacts := ReplaceById(contacts, id, row);
          outcome := Saved(row);
          toast := Success("Emergency contact updated");
        case DbError =>
          outcome := Failed;
          toast := Error("Failed to update emergency contact");
      }
    }

    /** `deleteContact`: `deleted` is whether the database delete succeeded. */
    method DeleteContact(id: string, deleted: bool) returns (outcome: Outcome<()>, toast: Toast)
      modifies this
      ensures user == old(user) && loading == old(loading)
      ensures deleted ==>
                contacts == RemoveById(old(contacts), id) && outcome == Saved(()) && toast == Success("Emergency contact removed")
      ensures !deleted ==>
                contacts == old(contacts) && outcome == Failed && toast == Error("Failed to remove emergency contact")
    {
      if deleted {
        contacts := RemoveById(contacts, id);
        outcome := Saved(());
        toast := Success("Emergency contact removed");
      } else {
        outcome := Failed;
        toast := Error("Failed to remove emergency contact");
      }
    }
  }
}
