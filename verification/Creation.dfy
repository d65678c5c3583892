/** How a create request becomes a notification; shared by single and batch creation. */
module Creation {
  import opened Domain
  import opened Statements

  datatype TemplateRef = TemplateRef(name: string, vars: map<string, string>)

  datatype CreateInput = CreateInput(
    recipient: string,
    channel: Channel,
    content: string,
    template: Option<TemplateRef>,
    scheduledAt: Option<Time>,
    idempotencyKey: Option<string>)

  // Identity, timestamps and the pending-or-scheduled start of the lifecycle.
  function NewNotification(input: CreateInput, content: string, now: Time, batchId: Option<Id>): (n: Notification)
    ensures n.recipient == input.recipient && n.channel == input.channel && n.content == content
    ensures n.status == if input.scheduledAt == None then Pending else Scheduled
    ensures n.scheduledAt == input.scheduledAt && n.idempotencyKey == input.idempotencyKey && n.batchId == batchId
    ensures n.attempts == 0 && n.createdAt == n.updatedAt == now
    ensures n.lastError.None? && n.providerMessageId.None? && n.sentAt.None?
    ensures Initial(n)
  {
    Notification(
      batchId, input.recipient, input.channel, content,
      if input.scheduledAt.Some? then Scheduled else Pending,
      input.idempotencyKey, input.scheduledAt, 0, None, None, now, now, None)
  }
}
