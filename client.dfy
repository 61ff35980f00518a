/** The chat client seen from the bot: the values its events carry and the commands the bot issues to it. */
module Client {

  /** A contact: an identity the client can address, and its display name. */
  datatype Contact = Contact(id: string, name: string)

  /** A group chat returned by a room lookup. */
  datatype Room = Room(id: string)

  /** The status a login QR-code event reports. */
  datatype ScanStatus = Unknown | Cancel | Waiting | Scanned | Confirmed | Timeout

  /** An incoming message: its numeric type tag, its sender and its text body. */
  datatype Message = Message(kind: nat, talker: Contact, text: string)

  /** The type tag the client library gives plain-text messages (its message-type enumeration,
      which is not part of this model, numbers text as 7). */
  const TextType: nat := 7

  /** A call into the client, in the order the bot makes it. */
  datatype Command =
    | FindRoom(topic: string)                 // look up a room by name
    | AddMember(room: Room, member: Contact)  // invite a contact into a room
    | RoomSay(room: Room, text: string)       // post a message into a room
    | Delay(ms: nat)                          // suspend for a fixed time
    | Accept(contact: Contact)                // accept that contact's friend request
    | ContactSay(to: Contact, text: string)   // send a direct message to a contact
    | SessionLogout                           // log the account out
}
