/** The mailing-list client as the signup handler sees it. The client itself
    makes a network call to a third-party service; only the shape of what its
    `createContact` operation resolves to is modelled here. */
module Loops {
  import opened Wrappers

  /** The result of `createContact(email)`: whether the contact was created,
      and an optional explanation when it was not. */
  datatype ContactResult = ContactResult(success: bool, message: Option<string>)

  /** The provider as an oracle: what `createContact` answers for an email. */
  type CreateContact = string -> ContactResult
}
