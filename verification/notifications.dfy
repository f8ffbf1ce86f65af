/** Factory Method: `NotificationFactory.createNotification` maps a tag to one
    of the two notification variants, ignoring case, or to `null`. */
module Notifications {
  import opened Wrappers
  import opened JavaStrings

  /** The closed set of `Notification` implementations. */
  datatype Notification = Email | Sms

  /** The tag the factory tests for each variant. */
  function TagOf(n: Notification): (tag: string)
  {
    match n
    case Email => "EMAIL"
    case Sms => "SMS"
  }

  /** `createNotification(tag)` for a non-null `tag`: the Email variant when the
      tag equals "EMAIL" ignoring case, else the SMS variant when it equals
      "SMS" ignoring case, else `None` (the Java `null`) rather than a fault. */
  function CreateNotification(tag: string): (r: Option<Notification>)
    ensures r == Some(Email) <==> SameIgnoringCase(tag, TagOf(Email))
    ensures r == Some(Sms) <==> !SameIgnoringCase(tag, TagOf(Email)) && SameIgnoringCase(tag, TagOf(Sms))
    ensures r.None? <==> !SameIgnoringCase(tag, TagOf(Email)) && !SameIgnoringCase(tag, TagOf(Sms))
  {
    if EqualsIgnoreCase(tag, "EMAIL") then Some(Email)
    else if EqualsIgnoreCase(tag, "SMS") then Some(Sms)
    else None
  }

  /** The two recognised tags are not equal ignoring case, so the order of the
      two tests never matters. */
  lemma TagsDistinct()
    ensures !SameIgnoringCase(TagOf(Email), TagOf(Sms))
  {
  }

  /** The factory returns variant `n` exactly for the tags that equal `n`'s tag
      ignoring case. */
  lemma CreateNotificationIff(tag: string, n: Notification)
    ensures CreateNotification(tag) == Some(n) <==> SameIgnoringCase(tag, TagOf(n))
  {
  }

  /** Only the case of the letters in the tag is ignored: a tag and its
      upper-cased form select the same variant. */
  lemma CreateNotificationCaseInsensitive(tag: string)
    ensures CreateNotification(tag) == CreateNotification(UpperCase(tag))
  {
  }

  /** Sample tags: every spelling of "email" gives Email, "sms" gives SMS, an
      unknown tag gives `None`. */
  lemma CreateNotificationExamples()
    ensures CreateNotification("email") == Some(Email)
    ensures CreateNotification("Email") == Some(Email)
    ensures CreateNotification("EMAIL") == Some(Email)
    ensures CreateNotification("SMS") == Some(Sms)
    ensures CreateNotification("sMs") == Some(Sms)
    ensures CreateNotification("fax") == None
    ensures CreateNotification("") == None
  {
  }
}
