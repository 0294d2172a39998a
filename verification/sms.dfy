/** SMS dispatch (sms_service.py): the configuration read from the settings table,
    the decision of `send_sms` and the status it logs, the provider placeholders,
    and the per-customer senders. */
module Sms {
  import opened Base
  import opened Tables

  /** A provider call's outcome: whether it succeeded and its message. */
  datatype SendResult = SendResult(success: bool, message: string)

  /** `get_setting`: the stored value of the key, or the default when absent. */
  function SettingOr(settings: seq<Setting>, key: string, default: string): (v: string)
    ensures SettingIndex(settings, key).None? ==> v == default
    ensures SettingIndex(settings, key).Some? ==> v == settings[SettingIndex(settings, key).value].value
  {
    match SettingIndex(settings, key)
    case None => default
    case Some(k) => settings[k].value
  }

  const NotConfiguredMessage: string :=
    "SMS provider not configured. Please configure SMS API settings in Settings > SMS Configuration before sending SMS."

  /** `is_configured`: a provider other than 'none' or '', and a non-empty key. A
      configured service therefore always has a key to send with. */
  predicate Configured(provider: string, apiKey: string): (b: bool)
    ensures b ==> apiKey != ""
    ensures provider == "none" || provider == "" ==> !b
  {
    provider != "none" && provider != "" && apiKey != ""
  }

  /** The outcome of a provider integration that is not implemented: a failure
      naming the provider. */
  function NotImplemented(providerName: string): SendResult
  {
    SendResult(false, providerName + " integration not implemented")
  }

  /** The three provider integrations are placeholders that always fail. */
  function SendViaTwilio(phoneNumber: string, message: string): (r: SendResult)
    ensures !r.success
  {
    NotImplemented("Twilio")
  }

  function SendViaKavenegar(phoneNumber: string, message: string): (r: SendResult)
    ensures !r.success
  {
    NotImplemented("Kavenegar")
  }

  function SendViaGhasedak(phoneNumber: string, message: string): (r: SendResult)
    ensures !r.success
  {
    NotImplemented("Ghasedak")
  }

  /** The provider dispatch of `send_sms`: a known provider's integration, or a
      failure with "Unknown provider". No provider can succeed. */
  function Dispatch(provider: string, phoneNumber: string, message: string): (r: SendResult)
    ensures !r.success
    ensures provider !in {"twilio", "kavenegar", "ghasedak"} ==> r == SendResult(false, "Unknown provider")
  {
    if provider == "twilio" then SendViaTwilio(phoneNumber, message)
    else if provider == "kavenegar" then SendViaKavenegar(phoneNumber, message)
    else if provider == "ghasedak" then SendViaGhasedak(phoneNumber, message)
    else SendResult(false, "Unknown provider")
  }

  /** The status and error message logged for a provider result. */
  function LoggedStatus(r: SendResult): string
  {
    if r.success then "sent" else "failed"
  }

  function LoggedError(r: SendResult): Option<string>
  {
    if r.success then None else Some(r.message)
  }

  /** 'sent' is logged exactly for a success, and an error message exactly for a failure. */
  lemma StatusMapping(r: SendResult)
    ensures LoggedStatus(r) == "sent" <==> r.success
    ensures LoggedStatus(r) == "failed" <==> !r.success
    ensures LoggedError(r).Some? <==> !r.success
  {
  }

  /** `after` is `before` with one row appended for customer `customerId`, sent to
      `phoneNumber` with `message` and type `smsType`. */
  predicate LoggedOneFor(before: seq<SmsLog>, after: seq<SmsLog>, customerId: int,
                         phoneNumber: string, message: string, smsType: string)
  {
    && |after| == |before| + 1
    && after[..|before|] == before
    && after[|before|].customerId == Some(customerId)
    && after[|before|].phoneNumber == phoneNumber
    && after[|before|].message == message
    && after[|before|].smsType == smsType
  }

  /** No history row says the message was sent. */
  ghost predicate NothingSent(history: seq<SmsLog>)
  {
    forall i :: 0 <= i < |history| ==> history[i].status != "sent"
  }

  class SmsService {
    const provider: string
    const apiKey: string
    const apiSecret: string
    const senderNumber: string
    const db: Db

    /** `__init__`: the four settings, with 'none' and '' as defaults. */
    constructor (db: Db)
      ensures this.db == db
      ensures provider == SettingOr(db.settings, "sms_provider", "none")
      ensures apiKey == SettingOr(db.settings, "sms_api_key", "")
      ensures apiSecret == SettingOr(db.settings, "sms_api_secret", "")
      ensures senderNumber == SettingOr(db.settings, "sms_sender_number", "")
    {
      this.db := db;
      provider := SettingOr(db.settings, "sms_provider", "none");
      apiKey := SettingOr(db.settings, "sms_api_key", "");
      apiSecret := SettingOr(db.settings, "sms_api_secret", "");
      senderNumber := SettingOr(db.settings, "sms_sender_number", "");
    }

    predicate IsConfigured(): (b: bool)
      ensures b ==> apiKey != ""
      ensures provider == "none" ==> !b
    {
      Configured(provider, apiKey)
    }

    /** `log_sms`: one history row stamped with now. */
    method LogSms(customerId: Option<int>, phoneNumber: string, message: string, smsType: string,
                  status: string, errorMessage: Option<string>, now: Instant)
      modifies db`smsHistory
      ensures db.smsHistory == old(db.smsHistory)
                + [SmsLog(customerId, phoneNumber, message, smsType, status, now, errorMessage)]
    {
      db.smsHistory := db.smsHistory + [SmsLog(customerId, phoneNumber, message, smsType, status, now, errorMessage)];
    }

    /** `send_sms`: every call logs exactly one history row. Unconfigured, it fails
        with the 'not_configured' message and calls no provider; configured, it
        dispatches and logs 'sent' or 'failed' accordingly. */
    method SendSms(phoneNumber: string, message: string, smsType: string, customerId: Option<int>, now: Instant)
      returns (result: SendResult)
      modifies db`smsHistory
      ensures !IsConfigured() ==>
                result == SendResult(false, NotConfiguredMessage)
                && db.smsHistory == old(db.smsHistory)
                   + [SmsLog(customerId, phoneNumber, message, smsType, "not_configured", now, Some(NotConfiguredMessage))]
      ensures IsConfigured() ==>
                result == Dispatch(provider, phoneNumber, message)
                && db.smsHistory == old(db.smsHistory)
                   + [SmsLog(customerId, phoneNumber, message, smsType, LoggedStatus(result), now, LoggedError(result))]
      ensures !result.success
      ensures NothingSent(old(db.smsHistory)) ==> NothingSent(db.smsHistory)
    {
      if !IsConfigured() {
        LogSms(customerId, phoneNumber, message, smsType, "not_configured", Some(NotConfiguredMessage), now);
        return SendResult(false, NotConfiguredMessage);
      }
      // The 'no_api_key' branch of the source sits here; a configured service
      // always has a key, so it is never taken.
      if apiKey == "" {
        assert false;
      }
      result := Dispatch(provider, phoneNumber, message);
      var status := if result.success then "sent" else "failed";
      var error := if result.success then None else Some(result.message);
      LogSms(customerId, phoneNumber, message, smsType, status, error, now);
    }

    /** The shared shape of the per-customer senders: an unknown customer id gives
        "Customer not found" with nothing sent or logged; otherwise the message built
        from the customer's name goes to the customer's phone. */
    method SendToCustomer(customerId: int, compose: string -> string, smsType: string, now: Instant)
      returns (result: SendResult)
      modifies db`smsHistory
      ensures !(1 <= customerId <= |db.customers|) ==>
                result == SendResult(false, "Customer not found") && db.smsHistory == old(db.smsHistory)
      ensures 1 <= customerId <= |db.customers| ==>
                var c := db.customers[customerId - 1];
                LoggedOneFor(old(db.smsHistory), db.smsHistory, customerId, c.phone, compose(c.name), smsType)
      ensures !result.success
    {
      if !(1 <= customerId <= |db.customers|) {
        return SendResult(false, "Customer not found");
      }
      var c := db.customers[customerId - 1];
      result := SendSms(c.phone, compose(c.name), smsType, Some(customerId), now);
    }

    /** `send_survey_sms`. */
    method SendSurveySms(customerId: int, compose: string -> string, now: Instant) returns (result: SendResult)
      modifies db`smsHistory
      ensures !(1 <= customerId <= |db.customers|) ==>
                result == SendResult(false, "Customer not found") && db.smsHistory == old(db.smsHistory)
      ensures 1 <= customerId <= |db.customers| ==>
                var c := db.customers[customerId - 1];
                LoggedOneFor(old(db.smsHistory), db.smsHistory, customerId, c.phone, compose(c.name), "survey")
      ensures !result.success
    {
      result := SendToCustomer(customerId, compose, "survey", now);
    }

    /** `send_birthday_sms`. */
    method SendBirthdaySms(customerId: int, compose: string -> string, now: Instant) returns (result: SendResult)
      modifies db`smsHistory
      ensures !(1 <= customerId <= |db.customers|) ==>
                result == SendResult(false, "Customer not found") && db.smsHistory == old(db.smsHistory)
      ensures 1 <= customerId <= |db.customers| ==>
                var c := db.customers[customerId - 1];
                LoggedOneFor(old(db.smsHistory), db.smsHistory, customerId, c.phone, compose(c.name), "birthday")
      ensures !result.success
    {
      result := SendToCustomer(customerId, compose, "birthday", now);
    }

    /** `send_promotional_sms`: `compose` carries the promotion text. */
    method SendPromotionalSms(customerId: int, compose: string -> string, now: Instant) returns (result: SendResult)
      modifies db`smsHistory
      ensures !(1 <= customerId <= |db.customers|) ==>
                result == SendResult(false, "Customer not found") && db.smsHistory == old(db.smsHistory)
      ensures 1 <= customerId <= |db.customers| ==>
                var c := db.customers[customerId - 1];
                LoggedOneFor(old(db.smsHistory), db.smsHistory, customerId, c.phone, compose(c.name), "promotional")
      ensures !result.success
    {
      result := SendToCustomer(customerId, compose, "promotional", now);
    }

    /** `send_inactive_customer_sms`, logged with type 'reactivation'. */
    method SendInactiveCustomerSms(customerId: int, compose: string -> string, now: Instant) returns (result: SendResult)
      modifies db`smsHistory
      ensures !(1 <= customerId <= |db.customers|) ==>
                result == SendResult(false, "Customer not found") && db.smsHistory == old(db.smsHistory)
      ensures 1 <= customerId <= |db.customers| ==>
                var c := db.customers[customerId - 1];
                LoggedOneFor(old(db.smsHistory), db.smsHistory, customerId, c.phone, compose(c.name), "reactivation")
      ensures !result.success
    {
      result := SendToCustomer(customerId, compose, "reactivation", now);
    }
  }
}
