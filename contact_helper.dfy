/** The emergency contact list (HandsUpSOS/ContactHelper.swift): adding a
    contact with its duplicate and phone checks, removing and clearing, and
    the phone numbers the SOS message is sent to. */
module EmergencyContacts {
  import opened Options
  import opened Sequences

  /** A `CNContact`, reduced to what the list uses: its identifier and the
      string values of its phone numbers, in order. */
  datatype Contact = Contact(identifier: string, phoneNumbers: seq<string>)

  const AlreadyListed := "Contact already in emergency list"
  const NoPhoneNumber := "Selected contact has no phone number"

  /** Some listed contact has this identifier (`contains(where:)`). */
  predicate Listed(contacts: seq<Contact>, identifier: string) {
    exists c :: c in contacts && c.identifier == identifier
  }

  predicate DistinctIdentifiers(contacts: seq<Contact>) {
    forall i, j :: 0 <= i < j < |contacts| ==> contacts[i].identifier != contacts[j].identifier
  }

  predicate HasPhone(c: Contact) {
    c.phoneNumbers != []
  }

  /** `compactMap { $0.phoneNumbers.first?.value.stringValue }`. */
  function FirstPhones(contacts: seq<Contact>): seq<string> {
    if contacts == [] then []
    else
      var last := contacts[|contacts| - 1];
      FirstPhones(contacts[..|contacts| - 1]) + (if HasPhone(last) then [last.phoneNumbers[0]] else [])
  }

  /** The phone numbers are the first numbers of the contacts that have one,
      in list order. */
  lemma {:induction false} FirstPhonesSpec(contacts: seq<Contact>)
    ensures |FirstPhones(contacts)| == |Filter(contacts, HasPhone)|
    ensures forall k :: 0 <= k < |FirstPhones(contacts)| ==>
              HasPhone(Filter(contacts, HasPhone)[k]) &&
              FirstPhones(contacts)[k] == Filter(contacts, HasPhone)[k].phoneNumbers[0]
  {
    if contacts != [] {
      FirstPhonesSpec(contacts[..|contacts| - 1]);
    }
  }

  /** Removing a contact that was just added to a list not holding its
      identifier gives back the list. */
  lemma RemoveUndoesAdd(contacts: seq<Contact>, contact: Contact)
    requires !Listed(contacts, contact.identifier)
    ensures Filter(contacts + [contact], (c: Contact) => c.identifier != contact.identifier) == contacts
  {
    FilterAll(contacts, (c: Contact) => c.identifier != contact.identifier);
    assert (contacts + [contact])[..|contacts|] == contacts;
  }

  /** `ContactHelper`: the chosen emergency contacts and the last error shown
      to the user. The deferred main-queue updates run at once. */
  class ContactHelper {
    var contacts: seq<Contact>
    var isLoading: bool
    var errorMessage: Option<string>

    /** An empty list; loading the saved contacts from the address book is
        not part of this model. */
    constructor()
      ensures contacts == [] && !isLoading && errorMessage == None
    {
      contacts := [];
      isLoading := false;
      errorMessage := None;
    }

    /** `addContact`: a contact whose identifier is already listed is
        refused first; then one without a phone number; otherwise it is
        appended and the error cleared. Identifiers stay pairwise
        distinct. */
    method AddContact(contact: Contact)
      modifies this
      ensures Listed(old(contacts), contact.identifier) ==>
                contacts == old(contacts) && errorMessage == Some(AlreadyListed)
      ensures !Listed(old(contacts), contact.identifier) && !HasPhone(contact) ==>
                contacts == old(contacts) && errorMessage == Some(NoPhoneNumber)
      ensures !Listed(old(contacts), contact.identifier) && HasPhone(contact) ==>
                contacts == old(contacts) + [contact] && errorMessage == None
      ensures isLoading == old(isLoading)
      ensures DistinctIdentifiers(old(contacts)) ==> DistinctIdentifiers(contacts)
    {
      if !Listed(contacts, contact.identifier) {
        if HasPhone(contact) {
          ghost var before := contacts;
          contacts := contacts + [contact];
          errorMessage := None;
          forall i | 0 <= i < |before| ensures before[i].identifier != contact.identifier {
            assert before[i] in before;
          }
        } else {
          errorMessage := Some(NoPhoneNumber);
        }
      } else {
        errorMessage := Some(AlreadyListed);
      }
    }

    /** `removeContact(_:)`: drops every entry with the contact's identifier
        and keeps the others in order. */
    method RemoveContact(contact: Contact)
      modifies this
      ensures contacts == Filter(old(contacts), (c: Contact) => c.identifier != contact.identifier)
      ensures !Listed(contacts, contact.identifier)
      ensures forall c :: c in old(contacts) && c.identifier != contact.identifier ==> c in contacts
      ensures isLoading == old(isLoading) && errorMessage == old(errorMessage)
    {
      var keep := (c: Contact) => c.identifier != contact.identifier;
      FilterSelects(contacts, keep);
      contacts := Filter(contacts, keep);
    }

    /** `removeContact(at:)`: removes the entries at the given positions,
        which must all be in range, and keeps the rest in order. */
    method RemoveContactAt(offsets: set<nat>)
      requires forall i :: i in offsets ==> i < |contacts|
      modifies this
      ensures contacts == RemoveAtOffsets(old(contacts), offsets)
      ensures |contacts| == |old(contacts)| - |offsets|
      ensures isLoading == old(isLoading) && errorMessage == old(errorMessage)
    {
      RemoveAtOffsetsLength(contacts, offsets);
      contacts := RemoveAtOffsets(contacts, offsets);
    }

    /** `clearAllContacts` */
    method ClearAllContacts()
      modifies this
      ensures contacts == []
      ensures isLoading == old(isLoading) && errorMessage == old(errorMessage)
    {
      contacts := [];
    }

    /** `getPhoneNumbers`: the first number of every contact that has one,
        in list order, so never more numbers than contacts. */
    function GetPhoneNumbers(): (numbers: seq<string>)
      reads this
      ensures |numbers| <= |contacts|
      ensures |numbers| == |Filter(contacts, HasPhone)|
      ensures forall k :: 0 <= k < |numbers| ==>
                HasPhone(Filter(contacts, HasPhone)[k]) &&
                numbers[k] == Filter(contacts, HasPhone)[k].phoneNumbers[0]
    {
      FirstPhonesSpec(contacts);
      FirstPhones(contacts)
    }
  }
}
