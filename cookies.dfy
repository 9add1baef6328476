/**
 * `parseCookies`, the Cookie-header parser copied into every authenticated
 * handler: split the header at every `;`, trim each segment, split it at every
 * `=`, and keep name = first part, value = second part when both are non-empty.
 */
module Cookies {
  import opened Wrappers
  import opened JsString

  const AccessTokenName := "sb-access-token"
  const RefreshTokenName := "sb-refresh-token"

  /**
   * The (name, value) one `;`-segment contributes, if any: the text before the
   * first `=` and the text between the first and the second `=`.
   */
  function ParseSegment(segment: string): (entry: Option<(string, string)>)
  {
    var parts := Split(Trim(segment), '=');
    if |parts| >= 2 && parts[0] != "" && parts[1] != "" then Some((parts[0], parts[1])) else None
  }

  /** The entries the segments yield, one per segment, in order. */
  function Entries(segments: seq<string>): (entries: seq<Option<(string, string)>>)
    ensures |entries| == |segments|
    ensures forall i {:trigger entries[i]} :: 0 <= i < |segments| ==> entries[i] == ParseSegment(segments[i])
  {
    seq(|segments|, i requires 0 <= i < |segments| => ParseSegment(segments[i]))
  }

  /** An entry for `name`. */
  predicate Names(entry: Option<(string, string)>, name: string)
  {
    entry.Some? && entry.value.0 == name
  }

  /**
   * `cookies[name] = value` on a plain object: the name `__proto__` reaches the
   * prototype setter, which ignores a string, so that entry is never recorded.
   */
  function Record(cookies: map<string, string>, entry: Option<(string, string)>): map<string, string>
  {
    match entry
    case None => cookies
    case Some((name, value)) => if name == "__proto__" then cookies else cookies[name := value]
  }

  /** The record after the `forEach` has stored `entries` in order. */
  function StoreAll(entries: seq<Option<(string, string)>>): map<string, string>
  {
    if entries == [] then map[]
    else Record(StoreAll(entries[..|entries| - 1]), entries[|entries| - 1])
  }

  /** The record `parseCookies(header)` returns; a null or empty header gives `{}`. */
  function CookieMap(header: Option<string>): map<string, string>
  {
    if header.None? || header.value == "" then map[] else StoreAll(Entries(Split(header.value, ';')))
  }

  /** parseCookies, rewards-claim.ts and its six copies. */
  method ParseCookies(header: Option<string>) returns (cookies: map<string, string>)
    ensures cookies == CookieMap(header)
  {
    cookies := map[];
    if header.None? || header.value == "" {
      return;
    }
    var segments := Split(header.value, ';');
    ghost var entries := Entries(segments);
    var i := 0;
    while i < |segments|
      invariant 0 <= i <= |segments|
      invariant cookies == StoreAll(entries[..i])
    {
      var parts := Split(Trim(segments[i]), '=');
      if |parts| >= 2 && parts[0] != "" && parts[1] != "" {
        var name, value := parts[0], parts[1];
        if name != "__proto__" {
          cookies := cookies[name := value];
        }
      }
      assert entries[..i + 1][..i] == entries[..i];
      i := i + 1;
    }
    assert entries[..i] == entries;
  }

  // ---------------------------------------------------------------- properties

  /** A null or empty header parses to the empty record. */
  lemma EmptyHeader()
    ensures CookieMap(None) == map[]
    ensures CookieMap(Some("")) == map[]
  {
  }

  /**
   * A segment whose trimmed text is `name=value` followed by nothing or by
   * another `=...` yields exactly (name, value): no trimming around `=`, and
   * the text after a second `=` is dropped.
   */
  lemma {:induction false} SegmentEntry(segment: string, name: string, value: string, rest: string)
    requires Trim(segment) == name + "=" + value + rest
    requires name != "" && value != "" && '=' !in name && '=' !in value
    requires rest == "" || rest[0] == '='
    ensures ParseSegment(segment) == Some((name, value))
  {
    assert name + "=" + value + rest == name + ['='] + (value + rest);
    SplitAppend(name, '=', value + rest);
    SplitNoSeparator(name, '=');
    if rest == "" {
      assert value + rest == value;
      SplitNoSeparator(value, '=');
    } else {
      assert value + rest == value + ['='] + rest[1..];
      SplitAppend(value, '=', rest[1..]);
      SplitNoSeparator(value, '=');
    }
  }

  /** A segment with no `=` contributes nothing. */
  lemma SegmentWithoutEquals(segment: string)
    requires '=' !in Trim(segment)
    ensures ParseSegment(segment) == None
  {
    SplitNoSeparator(Trim(segment), '=');
  }

  /** A segment whose name or value is empty contributes nothing. */
  lemma {:induction false} SegmentWithEmptyPart(segment: string, name: string, rest: string)
    requires Trim(segment) == name + "=" + rest && '=' !in name
    requires name == "" || rest == "" || rest[0] == '='
    ensures ParseSegment(segment) == None
  {
    assert name + "=" + rest == name + ['='] + rest;
    SplitAppend(name, '=', rest);
    SplitNoSeparator(name, '=');
    if rest != "" && rest[0] == '=' {
      assert rest == [] + ['='] + rest[1..];
      SplitAppend([], '=', rest[1..]);
    }
  }

  /**
   * The record holds `name` exactly when some entry names it (and it is not
   * `__proto__`); its value is that of the LAST entry naming it.
   */
  lemma {:induction false} LastOccurrenceWins(entries: seq<Option<(string, string)>>, name: string)
    ensures name in StoreAll(entries) <==>
      name != "__proto__" && exists i :: 0 <= i < |entries| && Names(entries[i], name)
    ensures name in StoreAll(entries) ==>
      exists i :: 0 <= i < |entries| && Names(entries[i], name)
        && StoreAll(entries)[name] == entries[i].value.1
        && forall j :: i < j < |entries| ==> !Names(entries[j], name)
  {
    if entries != [] {
      var n := |entries| - 1;
      var init := entries[..n];
      LastOccurrenceWins(init, name);
      assert forall j :: 0 <= j < n ==> init[j] == entries[j];
      if !Names(entries[n], name) {
        assert name in StoreAll(entries) <==> name in StoreAll(init);
        if name in StoreAll(init) {
          var i :| 0 <= i < |init| && Names(init[i], name)
            && StoreAll(init)[name] == init[i].value.1
            && forall j :: i < j < |init| ==> !Names(init[j], name);
          assert StoreAll(entries)[name] == StoreAll(init)[name];
          assert forall j :: i < j < |entries| ==> !Names(entries[j], name);
        }
        if exists i :: 0 <= i < |entries| && Names(entries[i], name) {
          var i :| 0 <= i < |entries| && Names(entries[i], name);
          assert i < n && Names(init[i], name);
        }
      }
    }
  }

  /**
   * The same at the level of a header: a name is present exactly when one of
   * the header's `;`-segments yields it, with the value of the last such segment.
   */
  lemma HeaderLastOccurrenceWins(header: string, name: string)
    requires header != ""
    ensures var segments := Split(header, ';');
      && (name in CookieMap(Some(header)) <==>
            name != "__proto__" && exists i :: 0 <= i < |segments| && Names(ParseSegment(segments[i]), name))
      && (name in CookieMap(Some(header)) ==>
            exists i :: 0 <= i < |segments| && Names(ParseSegment(segments[i]), name)
              && CookieMap(Some(header))[name] == ParseSegment(segments[i]).value.1
              && forall j :: i < j < |segments| ==> !Names(ParseSegment(segments[j]), name))
  {
    var segments := Split(header, ';');
    var entries := Entries(segments);
    LastOccurrenceWins(entries, name);
    assert forall i :: 0 <= i < |segments| ==> entries[i] == ParseSegment(segments[i]);
  }

  /** Every entry a segment yields has a non-empty, `=`-free name and value. */
  lemma SegmentEntryWellFormed(segment: string)
    ensures ParseSegment(segment).Some? ==>
      var (name, value) := ParseSegment(segment).value;
      name != "" && '=' !in name && value != "" && '=' !in value
  {
  }

  /** Every recorded cookie has a non-empty, `=`-free name and value. */
  lemma {:induction false} StoredWellFormed(entries: seq<Option<(string, string)>>)
    requires forall i :: 0 <= i < |entries| && entries[i].Some? ==>
      entries[i].value.0 != "" && '=' !in entries[i].value.0 && entries[i].value.1 != "" && '=' !in entries[i].value.1
    ensures forall name :: name in StoreAll(entries) ==>
      name != "" && '=' !in name && StoreAll(entries)[name] != "" && '=' !in StoreAll(entries)[name]
  {
    if entries != [] {
      StoredWellFormed(entries[..|entries| - 1]);
    }
  }

  /** So is every cookie of a parsed header. */
  lemma CookieMapWellFormed(header: Option<string>, name: string)
    requires name in CookieMap(header)
    ensures name != "" && '=' !in name && CookieMap(header)[name] != "" && '=' !in CookieMap(header)[name]
  {
    if header.Some? && header.value != "" {
      var entries := Entries(Split(header.value, ';'));
      forall i | 0 <= i < |entries| && entries[i].Some?
        ensures entries[i].value.0 != "" && '=' !in entries[i].value.0 && entries[i].value.1 != "" && '=' !in entries[i].value.1
      {
        SegmentEntryWellFormed(Split(header.value, ';')[i]);
      }
      StoredWellFormed(entries);
    }
  }

  /** A header without `;` is one segment. */
  lemma SingleSegment(header: string)
    requires header != "" && ';' !in header
    ensures CookieMap(Some(header)) == Record(map[], ParseSegment(header))
  {
    SplitNoSeparator(header, ';');
    var entries := Entries([header]);
    assert entries == [ParseSegment(header)];
    assert entries[..0] == [];
    assert StoreAll(entries) == Record(StoreAll([]), entries[0]);
  }

  /** A one-cookie header `name=value=rest` yields name with value `value`: the rest is cut off. */
  lemma SecondEqualsTruncates(name: string, value: string, rest: string)
    requires name != "" && value != "" && '=' !in name && '=' !in value && name != "__proto__"
    requires ';' !in name + value + rest
    requires var header := name + "=" + value + "=" + rest; Trim(header) == header
    ensures CookieMap(Some(name + "=" + value + "=" + rest)) == map[name := value]
  {
    var header := name + "=" + value + "=" + rest;
    assert ';' !in header by {
      assert forall k :: 0 <= k < |header| ==> header[k] == '=' || header[k] in name + value + rest;
    }
    SingleSegment(header);
    assert header == name + "=" + value + ("=" + rest);
    SegmentEntry(header, name, value, "=" + rest);
  }
}
