/** src/components/ui/server-sidebar-button.tsx: a round sidebar button with an
    optional unread badge. */
module ServerSidebarButton {
  import opened Wrappers
  import opened Text

  /** The badge text of lines 27-29, or `None` when no badge is drawn: nothing
      for a missing, zero or negative count, the count itself up to 99, and
      "99+" above. */
  function Badge(badgeCount: Option<int>): (r: Option<string>)
    ensures r.None? <==> badgeCount.None? || badgeCount.value <= 0
    ensures r.Some? && badgeCount.value <= 99 ==> r.value == IntToString(badgeCount.value)
    ensures r.Some? && badgeCount.value > 99 ==> r.value == "99+"
  {
    if badgeCount.None? || badgeCount.value == 0 || !(badgeCount.value > 0) then None
    else if badgeCount.value > 99 then Some("99+")
    else Some(IntToString(badgeCount.value))
  }

  /** A badge's text is at most three characters, and reading a shown count
      back gives the count. */
  lemma BadgeFits(n: int)
    requires 0 < n <= 99
    ensures |Badge(Some(n)).value| <= 3
    ensures ParseInt(Badge(Some(n)).value) == Some(n)
  {
    IntToStringParses(n);
    if n >= 10 {
      assert NatToString(n) == NatToString(n / 10) + [DigitChar(n % 10)];
    }
  }
}
