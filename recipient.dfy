/** The recipient rule of `POST /api/send-message` (server.js:196): a phone
    number or chat id without `@c.us` in it gets `@c.us` appended. */
module Recipient {
  import opened JsStrings

  /** The suffix of direct (contact) chat ids. */
  const ContactSuffix: string := "@c.us"

  /** `phoneNumber.includes('@c.us') ? phoneNumber : phoneNumber + '@c.us'`. */
  function ChatId(phone: string): (id: string)
    ensures Includes(id, ContactSuffix)
    ensures StartsWith(id, phone)
    ensures Includes(phone, ContactSuffix) <==> id == phone
    ensures !Includes(phone, ContactSuffix) ==> id == phone + ContactSuffix
  {
    if Includes(phone, ContactSuffix) then phone
    else
      IncludesAppended(phone, ContactSuffix);
      assert (phone + ContactSuffix)[..|phone|] == phone;
      phone + ContactSuffix
  }

  /** Normalising an already normalised id changes nothing. */
  lemma ChatIdIdempotent(phone: string)
    ensures ChatId(ChatId(phone)) == ChatId(phone)
  {
  }

  /** A string in which no `@` is followed by `c` does not include `@c.us`. */
  lemma {:induction false} NoContactSuffix(s: string)
    requires forall i :: 0 <= i < |s| - 1 && s[i] == '@' ==> s[i + 1] != 'c'
    ensures !Includes(s, ContactSuffix)
    decreases |s|
  {
    if |s| > 0 {
      if |s| >= |ContactSuffix| {
        assert s[..|ContactSuffix|][0] == s[0] && s[..|ContactSuffix|][1] == s[1];
      }
      assert !StartsWith(s, ContactSuffix);
      assert forall i :: 0 <= i < |s[1..]| - 1 && s[1..][i] == '@' ==> s[1..][i + 1] != 'c' by {
        forall i | 0 <= i < |s[1..]| - 1 && s[1..][i] == '@' ensures s[1..][i + 1] != 'c' {
          assert s[1..][i] == s[i + 1] && s[1..][i + 1] == s[i + 2];
        }
      }
      NoContactSuffix(s[1..]);
    }
  }

  /** A number without any `@` gets the contact suffix appended. */
  lemma PlainNumberGetsContactSuffix(phone: string)
    requires forall i :: 0 <= i < |phone| ==> phone[i] != '@'
    ensures ChatId(phone) == phone + ContactSuffix
  {
    NoContactSuffix(phone);
  }

  /** The rule only looks for `@c.us`: a group id `<base>@g.us` is not passed
      through unchanged but gets `@c.us` appended as well. */
  lemma GroupIdGetsContactSuffix(base: string)
    requires forall i :: 0 <= i < |base| ==> base[i] != '@'
    ensures ChatId(base + "@g.us") == base + "@g.us" + ContactSuffix
  {
    var g := base + "@g.us";
    assert forall k :: 0 <= k < |base| ==> g[k] == base[k];
    forall i | 0 <= i < |g| - 1 && g[i] == '@' ensures g[i + 1] != 'c' {
      assert i == |base|;
    }
    NoContactSuffix(g);
  }
}
