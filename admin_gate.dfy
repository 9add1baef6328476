/**
 * The admin allow-list of admin-orders-reject.ts and admin-rewards-fulfill.ts:
 * `(ADMIN_EMAILS || '').split(',').map(e => e.trim()).includes(user.email || '')`.
 */
module AdminGate {
  import opened Wrappers
  import opened JsString

  /** Each entry trimmed, in order (the `.map(e => e.trim())`). */
  function TrimAll(entries: seq<string>): (trimmed: seq<string>)
    ensures |trimmed| == |entries|
    ensures forall i {:trigger trimmed[i]} :: 0 <= i < |entries| ==> trimmed[i] == Trim(entries[i])
  {
    if entries == [] then [] else [Trim(entries[0])] + TrimAll(entries[1..])
  }

  /** The allow-list read from the ADMIN_EMAILS setting; unset counts as "". */
  function AdminList(setting: Option<string>): seq<string>
  {
    TrimAll(Split(OrEmpty(setting), ','))
  }

  /** The gate: exact, case-sensitive membership of the (untrimmed) e-mail, absent read as "". */
  predicate IsAdmin(setting: Option<string>, email: Option<string>)
  {
    OrEmpty(email) in AdminList(setting)
  }

  /**
   * For a setting written as comma-free entries joined by commas, the gate
   * admits exactly the e-mails equal to one of the trimmed entries.
   */
  lemma AdminsOfEntries(entries: seq<string>, email: Option<string>)
    requires |entries| >= 1 && forall i :: 0 <= i < |entries| ==> ',' !in entries[i]
    ensures IsAdmin(Some(Join(entries, ',')), email) <==>
      exists i :: 0 <= i < |entries| && Trim(entries[i]) == OrEmpty(email)
  {
    JoinSplit(entries, ',');
    var list := AdminList(Some(Join(entries, ',')));
    assert list == TrimAll(entries);
    if OrEmpty(email) in list {
      var i :| 0 <= i < |list| && list[i] == OrEmpty(email);
      assert Trim(entries[i]) == OrEmpty(email);
    }
    if exists i :: 0 <= i < |entries| && Trim(entries[i]) == OrEmpty(email) {
      var i :| 0 <= i < |entries| && Trim(entries[i]) == OrEmpty(email);
      assert list[i] == OrEmpty(email);
    }
  }

  /** With ADMIN_EMAILS unset or empty the list is [""]: only an empty or absent e-mail passes. */
  lemma UnsetAdmitsOnlyEmptyEmail(setting: Option<string>, email: Option<string>)
    requires setting == None || setting == Some("")
    ensures AdminList(setting) == [""]
    ensures IsAdmin(setting, email) <==> OrEmpty(email) == ""
  {
    assert Trim("") == "";
  }

  /**
   * An entry that is empty or all white space (`a,,b`, `a, ,b`) puts "" on the
   * list, so a user without an e-mail passes the gate.
   */
  lemma {:induction false} BlankEntryAdmitsEmptyEmail(before: string, blank: string, after: string)
    requires AllSpace(blank) && ',' !in blank
    ensures IsAdmin(Some(before + "," + blank + "," + after), None)
    ensures IsAdmin(Some(before + "," + blank + "," + after), Some(""))
  {
    var s := before + "," + blank + "," + after;
    assert s == before + [','] + (blank + [','] + after);
    SplitAppend(before, ',', blank + [','] + after);
    SplitAppend(blank, ',', after);
    SplitNoSeparator(blank, ',');
    var entries := Split(s, ',');
    var k := |Split(before, ',')|;
    assert entries[k] == blank;
    TrimEmptyIffAllSpace(blank);
    assert AdminList(Some(s))[k] == "";
  }

  /** No trimmed entry starts or ends with white space. */
  lemma NoPaddedEntry(entries: seq<string>, email: string)
    requires email != "" && (IsSpace(email[0]) || IsSpace(email[|email| - 1]))
    ensures email !in TrimAll(entries)
  {
  }

  /** An e-mail with white space at either end never passes: list entries are trimmed, the e-mail is not. */
  lemma PaddedEmailRejected(setting: Option<string>, email: string)
    requires email != "" && (IsSpace(email[0]) || IsSpace(email[|email| - 1]))
    ensures !IsAdmin(setting, Some(email))
  {
    NoPaddedEntry(Split(OrEmpty(setting), ','), email);
  }

  /** Membership is case-sensitive: "A@x" on the list does not admit "a@x". */
  lemma CaseSensitive()
    ensures IsAdmin(Some("A@x"), Some("A@x"))
    ensures !IsAdmin(Some("A@x"), Some("a@x"))
  {
    SplitNoSeparator("A@x", ',');
    assert Trim("A@x") == "A@x" by {
      assert Leading("A@x") == 0;
      assert Trailing("A@x") == 0;
    }
    assert TrimAll(["A@x"]) == ["A@x"];
    assert "A@x" != "a@x" by {
      assert "A@x"[0] != "a@x"[0];
    }
  }
}
