/**
  The command-line shopping search JanggeumE_Searchproduct/productsearch.js:
  keep the first five results sold on Naver Smart Store, open the first one,
  and record them in a file named after the query and a compact timestamp.
  The search API's answer and the clock's ISO string are parameters.
 */
module ProductSearch {
  import opened JsText

  datatype Item = Item(title: string, link: string)

  /** How `request.get` called back: no response at all, or a status code with the parsed `items`. */
  datatype Reply = NoResponse | Http(statusCode: nat, items: seq<Item>)

  datatype Effect =
    | Log(msg: string)
    | Request(query: string)
    | Open(link: string)
    | WriteRecord(fileName: string, items: seq<Item>)
    | Crash  // an uncaught TypeError: `response.statusCode` of an undefined response

  const SMARTSTORE := "smartstore.naver.com"
  const MAX_KEPT: nat := 5
  const NO_QUERY := "검색어가 입력되지 않았습니다."
  const NO_MATCH := "smartstore.naver.com을 포함하는 검색 결과가 없습니다."

  predicate IsSmartstore(it: Item) {
    Contains(it.link, SMARTSTORE)
  }

  /** `items.filter(item => item.link.includes('smartstore.naver.com'))`. */
  function Filter(items: seq<Item>): (r: seq<Item>)
    ensures |r| <= |items|
    ensures forall i :: 0 <= i < |r| ==> IsSmartstore(r[i])
    ensures forall x :: x in r <==> x in items && IsSmartstore(x)
    decreases |items|
  {
    if items == [] then []
    else
      var rest := Filter(items[..|items| - 1]);
      var last := items[|items| - 1];
      assert items == items[..|items| - 1] + [last];
      if IsSmartstore(last) then rest + [last] else rest
  }

  /** Filtering keeps the original order: it distributes over concatenation. */
  lemma {:induction false} FilterAppend(a: seq<Item>, b: seq<Item>)
    ensures Filter(a + b) == Filter(a) + Filter(b)
    decreases |b|
  {
    if b == [] {
      assert a + b == a;
    } else {
      var b' := b[..|b| - 1];
      assert (a + b)[..|a + b| - 1] == a + b';
      assert (a + b)[|a + b| - 1] == b[|b| - 1];
      FilterAppend(a, b');
    }
  }

  /** `.slice(0, 5)` of the filtered list. */
  function KeepTop(items: seq<Item>): (r: seq<Item>)
    ensures |r| <= MAX_KEPT
    ensures |r| == if |Filter(items)| < MAX_KEPT then |Filter(items)| else MAX_KEPT
    ensures r == Filter(items)[..|r|]
    ensures forall i :: 0 <= i < |r| ==> IsSmartstore(r[i])
  {
    var f := Filter(items);
    if |f| <= MAX_KEPT then f else f[..MAX_KEPT]
  }

  /** Everything kept is a Smart Store item of the answer, and no Smart Store item is skipped while fewer than five are kept. */
  lemma KeptAreTheFirstMatches(items: seq<Item>)
    ensures forall x :: x in KeepTop(items) ==> x in items && IsSmartstore(x)
    ensures |KeepTop(items)| < MAX_KEPT ==> KeepTop(items) == Filter(items)
  {
    var f := Filter(items);
    var r := KeepTop(items);
    forall x | x in r
      ensures x in items && IsSmartstore(x)
    {
      var i :| 0 <= i < |r| && r[i] == x;
      assert f[i] == x;
    }
  }

  predicate IsSeparator(c: char) {
    c == '-' || c == ':' || c == '.'
  }

  /** `.replace(/[-:.]/g, '')`. */
  function StripSeparators(s: string): (r: string)
    ensures |r| <= |s|
    ensures forall i :: 0 <= i < |r| ==> !IsSeparator(r[i])
    decreases |s|
  {
    if s == [] then []
    else (if IsSeparator(s[0]) then [] else [s[0]]) + StripSeparators(s[1..])
  }

  lemma {:induction false} StripAppend(a: string, b: string)
    ensures StripSeparators(a + b) == StripSeparators(a) + StripSeparators(b)
    decreases |a|
  {
    if a == [] {
      assert a + b == b;
    } else {
      assert (a + b)[0] == a[0];
      assert (a + b)[1..] == a[1..] + b;
      StripAppend(a[1..], b);
    }
  }

  lemma {:induction false} StripKeeps(s: string)
    requires forall i :: 0 <= i < |s| ==> !IsSeparator(s[i])
    ensures StripSeparators(s) == s
    decreases |s|
  {
    if s != [] {
      StripKeeps(s[1..]);
    }
  }

  /** `new Date().toISOString().replace(/[-:.]/g, '').slice(0, 15)` for the clock's ISO string. */
  function Timestamp(iso: string): (r: string)
    ensures |r| <= 15
  {
    var stripped := StripSeparators(iso);
    if |stripped| <= 15 then stripped else stripped[..15]
  }

  /** The string `toISOString` produces from its fields: `YYYY-MM-DDTHH:mm:ss.sssZ`. */
  function IsoString(year: string, month: string, day: string, hour: string, minute: string, second: string, millis: string): string {
    year + ("-" + (month + ("-" + ((day + "T" + hour) + (":" + (minute + (":" + (second + ("." + (millis + "Z"))))))))))
  }

  predicate IsoFields(year: string, month: string, day: string, hour: string, minute: string, second: string, millis: string) {
    && |year| == 4 && |month| == 2 && |day| == 2 && |hour| == 2 && |minute| == 2 && |second| == 2 && |millis| == 3
    && AllDigits(year) && AllDigits(month) && AllDigits(day) && AllDigits(hour)
    && AllDigits(minute) && AllDigits(second) && AllDigits(millis)
  }

  predicate NoSeparator(s: string) {
    forall i :: 0 <= i < |s| ==> !IsSeparator(s[i])
  }

  /** A separator-free piece in front passes through unchanged. */
  lemma StripPrefix(a: string, b: string)
    requires NoSeparator(a)
    ensures StripSeparators(a + b) == a + StripSeparators(b)
  {
    StripAppend(a, b);
    StripKeeps(a);
  }

  /** A separator-free piece followed by one separator: the piece stays, the separator goes. */
  lemma StripSkip(a: string, sep: string, b: string)
    requires NoSeparator(a) && |sep| == 1 && IsSeparator(sep[0])
    ensures StripSeparators(a + (sep + b)) == a + StripSeparators(b)
  {
    StripPrefix(a, sep + b);
    assert (sep + b)[1..] == b;
  }

  /** Removing the separators of an ISO string leaves its fields, the 'T' and the 'Z'. */
  lemma StripIso(year: string, month: string, day: string, hour: string, minute: string, second: string, millis: string)
    requires IsoFields(year, month, day, hour, minute, second, millis)
    ensures StripSeparators(IsoString(year, month, day, hour, minute, second, millis))
      == year + (month + ((day + "T" + hour) + (minute + (second + (millis + "Z")))))
  {
    var dayHour := day + "T" + hour;
    assert NoSeparator(dayHour) by {
      forall k | 0 <= k < 5 ensures !IsSeparator(dayHour[k]) {
        if k < 2 { assert dayHour[k] == day[k]; }
        else if k > 2 { assert dayHour[k] == hour[k - 3]; }
      }
    }
    var tail := millis + "Z";
    assert StripSeparators(tail) == tail by {
      assert NoSeparator(tail) by {
        forall k | 0 <= k < 4 ensures !IsSeparator(tail[k]) {
          if k < 3 { assert tail[k] == millis[k]; }
        }
      }
      StripKeeps(tail);
    }
    var t5 := second + ("." + tail);
    StripSkip(second, ".", tail);
    var t4 := minute + (":" + t5);
    StripSkip(minute, ":", t5);
    var t3 := dayHour + (":" + t4);
    StripSkip(dayHour, ":", t4);
    var t2 := month + ("-" + t3);
    StripSkip(month, "-", t3);
    StripSkip(year, "-", t2);
  }

  /**
    The timestamp is `YYYYMMDD`, a 'T', then `HHMMSS`: the date, the time
    down to the second, and the 'T' the source comment leaves out.
   */
  lemma TimestampShape(year: string, month: string, day: string, hour: string, minute: string, second: string, millis: string)
    requires IsoFields(year, month, day, hour, minute, second, millis)
    ensures Timestamp(IsoString(year, month, day, hour, minute, second, millis))
      == year + month + day + "T" + hour + minute + second
  {
    StripIso(year, month, day, hour, minute, second, millis);
    var stamp := year + month + day + "T" + hour + minute + second;
    var tail := millis + "Z";
    assert year + (month + ((day + "T" + hour) + (minute + (second + tail)))) == stamp + tail;
    assert (stamp + tail)[..15] == stamp;
  }

  /** `${searchQuery}_${timestamp}.json`. */
  function RecordName(query: string, timestamp: string): (r: string)
    ensures |r| == |query| + |timestamp| + 6
    ensures r[..|query|] == query && r[|query|] == '_'
    ensures r[|query| + 1..|r| - 5] == timestamp
    ensures r[|r| - 5..] == ".json"
  {
    query + "_" + timestamp + ".json"
  }

  /**
    Two searches for the same query made at different times write to
    different files, so a later search never overwrites an earlier record.
   */
  lemma DistinctTimesDistinctRecords(query: string, t1: string, t2: string)
    requires t1 != t2
    ensures RecordName(query, t1) != RecordName(query, t2)
  {
    if |t1| == |t2| {
      var n1, n2 := RecordName(query, t1), RecordName(query, t2);
      assert n1[|query| + 1..|n1| - 5] == t1 && n2[|query| + 1..|n2| - 5] == t2;
    }
  }

  /**
    The whole run for one typed query: an empty query stops before any
    request; a 200 answer with Smart Store items opens the first kept link
    and records the kept items; anything else is only logged.
   */
  function Search(query: string, reply: Reply, iso: string): (r: seq<Effect>)
    ensures query == "" <==> r == [Log(NO_QUERY)]
    ensures query != "" ==> |r| >= 2 && r[0] == Request(query)
    ensures query != "" && reply.Http? && reply.statusCode == 200 && KeepTop(reply.items) != [] ==>
      r == [Request(query), Open(KeepTop(reply.items)[0].link),
            WriteRecord(RecordName(query, Timestamp(iso)), KeepTop(reply.items))]
    ensures query != "" ==>
      (r[1].Open? <==> reply.Http? && reply.statusCode == 200 && Filter(reply.items) != [])
    ensures forall i :: 0 <= i < |r| && i != 1 ==> !r[i].Open?
  {
    if query == "" then [Log(NO_QUERY)]
    else
      match reply
      case NoResponse => [Request(query), Crash]
      case Http(code, items) =>
        if code != 200 then [Request(query), Log("API 요청 실패: 상태 코드 " + NatToString(code))]
        else
          var kept := KeepTop(items);
          if kept == [] then [Request(query), Log(NO_MATCH)]
          else [Request(query), Open(kept[0].link), WriteRecord(RecordName(query, Timestamp(iso)), kept)]
  }
}
