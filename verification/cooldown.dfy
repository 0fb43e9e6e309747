/**
 * The per-chat cooldown of the monitor (`check_cooldown` and the
 * `last_forward_times` map). Times are whole seconds; the cooldown is a
 * number of minutes, possibly fractional.
 */
module Cooldown {

  /** Chat identifier as carried by an incoming event. */
  type ChatId = int

  /** Second at which each chat last had a message forwarded successfully. */
  type ForwardTimes = map<ChatId, int>

  /** `check_cooldown(chat, cooldown_minutes)` evaluated at second `now`. */
  function CheckCooldown(lastForward: ForwardTimes, chat: ChatId, now: int, cooldownMinutes: real): (allowed: bool)
    ensures chat !in lastForward ==> allowed
    ensures chat in lastForward ==> (allowed <==> (now - lastForward[chat]) as real >= 60.0 * cooldownMinutes)
  {
    if chat !in lastForward then true
    else (now - lastForward[chat]) as real / 60.0 >= cooldownMinutes
  }

  /** A cooldown of zero never blocks as long as the clock has not gone backwards. */
  lemma ZeroCooldownAlwaysAllows(lastForward: ForwardTimes, chat: ChatId, now: int)
    requires chat in lastForward ==> lastForward[chat] <= now
    ensures CheckCooldown(lastForward, chat, now, 0.0)
  {
  }

  /** Once a chat is allowed again, it stays allowed as time goes on. */
  lemma CooldownExpiresForGood(lastForward: ForwardTimes, chat: ChatId, now: int, later: int, cooldownMinutes: real)
    requires now <= later
    requires CheckCooldown(lastForward, chat, now, cooldownMinutes)
    ensures CheckCooldown(lastForward, chat, later, cooldownMinutes)
  {
  }

  /** Right after a forward recorded at `at`, the chat is blocked exactly for the next `60 * cooldown` seconds. */
  lemma BlockedUntilCooldownElapses(lastForward: ForwardTimes, chat: ChatId, at: int, now: int, cooldownMinutes: real)
    ensures !CheckCooldown(lastForward[chat := at], chat, now, cooldownMinutes)
        <==> ((now - at) as real) / 60.0 < cooldownMinutes
  {
  }

  /** Recording a forward for one chat does not change the verdict for any other chat. */
  lemma OtherChatsUnaffected(lastForward: ForwardTimes, chat: ChatId, other: ChatId, at: int, now: int, cooldownMinutes: real)
    requires other != chat
    ensures CheckCooldown(lastForward[chat := at], other, now, cooldownMinutes)
         == CheckCooldown(lastForward, other, now, cooldownMinutes)
  {
  }
}
