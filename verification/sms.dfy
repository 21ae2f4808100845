/** `sendSMS` in `src/lib/sms.ts`: normalise the number to international
    form, wrap it in the WhatsApp address scheme and hand the message to the
    provider, rethrowing the provider's failure. The provider is an oracle. */
module Sms {

  /** `phone.startsWith("+")`. */
  predicate StartsWithPlus(s: string) {
    |s| > 0 && s[0] == '+'
  }

  /** The default country code the job assumes for bare numbers. */
  const DefaultCountryCode: string := "+91"

  /** International form: a number already starting with `+` is kept, any
      other gets the Indian country code in front. */
  function ToInternational(phone: string): string {
    if StartsWithPlus(phone) then phone else DefaultCountryCode + phone
  }

  /** The international form starts with `+`, equals the number exactly when
      the number already did, and ends with the number unchanged. */
  lemma ToInternationalForm(phone: string)
    ensures var r := ToInternational(phone);
      && StartsWithPlus(r)
      && (r == phone <==> StartsWithPlus(phone))
      && (!StartsWithPlus(phone) ==> r == DefaultCountryCode + phone)
      && |phone| <= |r| && r[|r| - |phone|..] == phone
  {
  }

  /** Normalising twice is normalising once. */
  lemma ToInternationalIdempotent(phone: string)
    ensures ToInternational(ToInternational(phone)) == ToInternational(phone)
  {
  }

  /** The `to` address handed to the provider. */
  function Destination(phone: string): (r: string)
    ensures "whatsapp:+" <= r
    ensures StartsWithPlus(phone) ==> r == "whatsapp:" + phone
    ensures !StartsWithPlus(phone) ==> r == "whatsapp:+91" + phone
  {
    ToInternationalForm(phone);
    "whatsapp:" + ToInternational(phone)
  }

  /** One `client.messages.create` request. */
  datatype ProviderMessage = ProviderMessage(from: string, to: string, body: string)

  /** The provider's answer to the `call`-th request it receives: `true` for
      accepted, `false` for an exception. Network delivery is not modelled. */
  type Provider = (nat, ProviderMessage) -> bool

  datatype SendOutcome =
    | Delivered(message: ProviderMessage)
    | Threw(message: ProviderMessage)   // the provider's error, rethrown to the caller

  /** `sendSMS(body, phone)` as the `call`-th provider request, with `sender`
      the configured account number. */
  function SendSms(provider: Provider, call: nat, sender: string, body: string, phone: string): (r: SendOutcome)
    ensures r.message.body == body
    ensures r.message.to == Destination(phone)
    ensures r.message.from == "whatsapp:" + sender
    ensures r.Threw? <==> !provider(call, r.message)
  {
    var m := ProviderMessage("whatsapp:" + sender, Destination(phone), body);
    if provider(call, m) then Delivered(m) else Threw(m)
  }

  /** The request sent does not depend on the provider or on the call
      number; only the outcome does. */
  lemma SameRequest(p: Provider, q: Provider, c: nat, d: nat, sender: string, body: string, phone: string)
    ensures SendSms(p, c, sender, body, phone).message == SendSms(q, d, sender, body, phone).message
  {
    var m := ProviderMessage("whatsapp:" + sender, Destination(phone), body);
    assert SendSms(p, c, sender, body, phone).message == m;
    assert SendSms(q, d, sender, body, phone).message == m;
  }
}
