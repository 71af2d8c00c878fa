/** The WhatsApp sender of `whatsapp_service.py`: the credential check of its
    constructor and the normalisation of the destination address. The delivery
    itself is a transport function passed in by the caller. */
module WhatsApp {
  import opened Wrappers

  const Prefix := "whatsapp:"
  const DefaultFrom := "whatsapp:+14155238886"
  const MissingCredentialsError := "TWILIO_ACCOUNT_SID and TWILIO_AUTH_TOKEN must be set"

  datatype Service = Service(accountSid: string, authToken: string, fromNumber: string)

  /** The constructor, given the three environment variables: an absent or empty account
      SID or auth token raises; the sender number defaults when its variable is unset. */
  function NewService(sid: Option<string>, token: Option<string>, from: Option<string>)
    : (r: Result<Service, string>)
    ensures r.Success? <==> sid.Some? && sid.value != "" && token.Some? && token.value != ""
    ensures r.Success? ==> r.value.accountSid == sid.value && r.value.authToken == token.value
    ensures r.Success? && from.None? ==> r.value.fromNumber == DefaultFrom
    ensures r.Success? && from.Some? ==> r.value.fromNumber == from.value
    ensures r.Failure? ==> r.error == MissingCredentialsError
  {
    if sid.None? || sid.value == "" || token.None? || token.value == "" then
      Failure(MissingCredentialsError)
    else
      Success(Service(sid.value, token.value, from.GetOr(DefaultFrom)))
  }

  /** The address a message is delivered to: `to` with the channel prefix added when missing. */
  function Destination(to: string): (r: string)
    ensures Prefix <= r
    ensures Prefix <= to ==> r == to
    ensures !(Prefix <= to) ==> r == Prefix + to
  {
    if Prefix <= to then to else Prefix + to
  }

  /** Normalising an address that is already normalised changes nothing. */
  lemma DestinationIdempotent(to: string)
    ensures Destination(Destination(to)) == Destination(to)
  {
  }

  /** The destination is `to` itself or `to` behind one prefix: no other text is added or lost. */
  lemma DestinationKeepsAddress(to: string)
    ensures var r := Destination(to); r == to || (|r| == |Prefix| + |to| && r[|Prefix|..] == to)
  {
  }

  /** One delivery request handed to the transport. */
  datatype Outgoing = Outgoing(from: string, to: string, body: string)

  /** The request `send_message` builds: from the configured sender, to the normalised
      destination, with the body unchanged. */
  function Envelope(svc: Service, to: string, body: string): (m: Outgoing)
    ensures m.from == svc.fromNumber && m.body == body
    ensures Prefix <= m.to
    ensures m.to == Destination(to)
  {
    Outgoing(svc.fromNumber, Destination(to), body)
  }

  /** `send_message`: one request to the transport, whose outcome (the message SID, or the
      error it raised) is passed back to the caller unchanged. */
  function SendMessage(svc: Service, to: string, body: string, transport: Outgoing -> Result<string, string>)
    : (r: Result<string, string>)
    ensures r == transport(Envelope(svc, to, body))
  {
    transport(Envelope(svc, to, body))
  }
}
