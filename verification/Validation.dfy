/** What validation lets through, setting by setting: from anything valid, which values of one
    field keep it valid while the others stand. */
module Validation {
  import opened Types
  import opened Tables
  import opened Protocol

  // ---------------------------------------------------------------- text

  /** Space as strings.TrimSpace sees it. */
  lemma SpacesAre(c: char)
    ensures IsSpace(c) <==>
      c as int in {9, 10, 11, 12, 13, 0x20, 0x85, 0xA0, 0x1680, 0x2000, 0x2001, 0x2002, 0x2003, 0x2004, 0x2005,
                   0x2006, 0x2007, 0x2008, 0x2009, 0x200A, 0x2028, 0x2029, 0x202F, 0x205F, 0x3000}
  {}

  /** Text that trimming leaves whole and that is not empty. */
  predicate Trimmed(s: string) {
    s != "" && !IsSpace(s[0]) && !IsSpace(s[|s| - 1])
  }

  lemma TrimmedIff(s: string)
    ensures Trimmed(s) <==> !Blank(s) && !Padded(s)
  {}

  // ---------------------------------------------------------------- events

  /** A valid ordered event stays valid exactly for a trimmed key and names, a positive sequence
      not below the start asked for, and a message key that agrees with the ordering key. */
  lemma OrderedEventsTake(e: NewEvent, text: string, n: int)
    requires ValidEvent(e) && e.orderingKey != ""
    ensures ValidEvent(e.(destination := text)) <==> Trimmed(text) && |text| <= 249
    ensures ValidEvent(e.(eventType := text)) <==> Trimmed(text)
    ensures ValidEvent(e.(orderingKey := text, messageKey := "")) && text != "" <==> Trimmed(text)
    ensures ValidEvent(e.(messageKey := text)) <==> text == "" || text == e.orderingKey
    ensures ValidEvent(e.(sequence := n)) <==> n > 0 && n >= e.startSequence
    ensures ValidEvent(e.(startSequence := n)) <==> 0 <= n <= e.sequence
  {
    TrimmedIff(text);
  }

  /** A valid unordered event has no sequence and no start, and any message key. */
  lemma UnorderedEventsTake(e: NewEvent, text: string, n: int)
    requires ValidEvent(e) && e.orderingKey == ""
    ensures ValidEvent(e.(destination := text)) <==> Trimmed(text) && |text| <= 249
    ensures ValidEvent(e.(eventType := text)) <==> Trimmed(text)
    ensures ValidEvent(e.(messageKey := text))
    ensures ValidEvent(e.(sequence := n)) <==> n == 0
    ensures ValidEvent(e.(startSequence := n)) <==> n == 0
    ensures ValidEvent(e.(orderingKey := text, messageKey := "", sequence := n)) && text != "" <==>
      Trimmed(text) && n > 0
  {
    TrimmedIff(text);
  }

  // ---------------------------------------------------------------- Relay settings

  /** From valid settings, the values each setting may take while the others stand. */
  lemma SettingsTake(c: Config, n: int)
    requires c.Valid()
    ensures c.(batchSize := n).Valid() <==> n >= 1
    ensures c.(concurrency := n).Valid() <==> n >= 1
    ensures c.(pollInterval := n).Valid() <==> 1 <= n <= c.idleBackoffMax
    ensures c.(idleBackoffMax := n).Valid() <==> n >= c.pollInterval
    ensures c.(eventLease := n).Valid() <==> n > c.publishTimeout
    ensures c.(maxAttempts := n).Valid() <==> n >= 1
    ensures c.(baseDelay := n).Valid() <==> 1 <= n <= c.maxDelay
    ensures c.(maxDelay := n).Valid() <==> n >= c.baseDelay
    ensures c.(publishTimeout := n).Valid() <==> 1 <= n < c.eventLease && n + c.safetyMargin < c.orderingLease
    ensures c.(heartbeatInterval := n).Valid() <==> 1 <= n < c.staleAfter
    ensures c.(staleAfter := n).Valid() <==> n > c.heartbeatInterval
    ensures c.(rebalanceInterval := n).Valid() <==> 1 <= n < c.orderingLease
    ensures c.(orderingLease := n).Valid() <==> n > c.rebalanceInterval && n > c.publishTimeout + c.safetyMargin
    ensures c.(safetyMargin := n).Valid() <==> n >= 1 && c.publishTimeout + n < c.orderingLease
  {}
}
