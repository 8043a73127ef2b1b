/** The envelopes of `pubsub/shared/types.py` that the model needs. Identifiers are numbers. */
module Types {
  /** `body` stands for payload and extras, which nothing below looks into. */
  datatype Message = Message(id: nat, topic: string, body: nat, createdAt: real)

  /** One delivery attempt. `root` is the id of the first attempt of its retry chain; the source keeps
      no such field, and nothing that the source computes depends on it here. */
  datatype Delivery = Delivery(id: nat, subscription: nat, message: Message, attempt: int, root: nat)

  datatype DlqEntry = DlqEntry(message: Message, subscription: nat, attempts: int)

  function CreatedAt(m: Message): real { m.createdAt }
}
