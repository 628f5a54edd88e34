/** Emote catalog resolvers of src/ttv.rs.

    `download_json` becomes a pure dispatch on what the HTTPS GET yielded;
    the GET itself is a call on a `Network` whose n-th reply is fixed in
    advance, and which records every URL it is asked for. The two catalog
    structs are classes whose methods update `template`, `data` and (for
    the Twitch catalog) the cached `sub_emotes`, each proved against a
    specification function of the reply it received.
 */
module Ttv {
  import opened Outcomes
  import opened JsonValue
  import Text

  /** An entry of an emote list: (display name, image id). */
  datatype Emote = Emote(name: string, id: string)

  /** What one resolver call extracts: the URL template and the new entries. */
  datatype Catalog = Catalog(template: string, emotes: seq<Emote>)

  // =====================================================================
  // Fetching
  // =====================================================================

  /** What an HTTPS GET of a JSON endpoint gives `download_json`. */
  datatype Reply =
    | NoTls                        // `NativeTlsClient::new()` failed
    | SendFailed(error: string)    // `client.get(url).send()` failed
    | ReadFailed(error: string)    // reading the body failed
    | Received(body: Option<Json>) // the body, decoded; None if it is not JSON

  /** The network as an oracle: the n-th request made gets `reply(n)`. */
  class Network {
    const reply: nat -> Reply
    var requests: seq<string>

    constructor (reply: nat -> Reply)
      ensures this.reply == reply && requests == []
    {
      this.reply := reply;
      requests := [];
    }

    method Get(url: string) returns (r: Reply)
      modifies this
      ensures requests == old(requests) + [url]
      ensures r == reply(|old(requests)|)
    {
      r := reply(|requests|);
      requests := requests + [url];
    }
  }

  const GlobalUrl: string := "https://twitchemotes.com/api_cache/v2/global.json"
  const SubscriberUrl: string := "https://twitchemotes.com/api_cache/v2/subscriber.json"
  const BttvGlobalUrl: string := "https://api.betterttv.net/2/emotes"

  /** The channel name is formatted into the path without escaping. */
  function BttvChannelUrl(channel: string): string
  {
    "https://api.betterttv.net/2/channels/" + channel
  }

  /** The object carries no `status`, or the status 200. */
  predicate StatusAccepted(obj: Fields)
  {
    var status := Get(obj, "status");
    status.None? || AsU64(status.value) == Some(200)
  }

  /** The object carries a numeric `status` other than 200 and the string
      `message`. */
  predicate ApiError(obj: Fields, message: string)
  {
    var status := Get(obj, "status");
    && status.Some?
    && AsU64(status.value).Some?
    && AsU64(status.value).value != 200
    && Get(obj, "message") == Some(String(message))
  }

  /** `download_json` once the GET is done: transport errors come back as
      `Err`; a body that is not a JSON object, a non-numeric `status` or a
      missing `message` panics; otherwise the `status` dispatch. */
  function DownloadJson(reply: Reply): (r: Outcome<Fields>)
    ensures reply.NoTls? ==> r == Panic
    ensures (reply.SendFailed? || reply.ReadFailed?) ==> r == Err(reply.error)
    ensures reply.Received? && (reply.body.None? || !reply.body.value.Object?) ==> r == Panic
    ensures r.Ok? <==> reply.Received? && reply.body.Some? && reply.body.value.Object?
                       && StatusAccepted(reply.body.value.fields)
    ensures r.Ok? ==> reply.body == Some(Object(r.value))
    ensures r.Err? && reply.Received? ==>
              reply.body.Some? && reply.body.value.Object? && ApiError(reply.body.value.fields, r.message)
  {
    match reply
    case NoTls => Panic
    case SendFailed(e) => Err(e)
    case ReadFailed(e) => Err(e)
    case Received(body) =>
      if body.None? || !body.value.Object? then Panic
      else
        var obj := body.value.fields;
        match Get(obj, "status")
        case None => Ok(obj)
        case Some(v) =>
          match AsU64(v)
          case None => Panic
          case Some(n) =>
            if n == 200 then Ok(obj)
            else
              match Get(obj, "message")
              case Some(String(m)) => Err(m)
              case _ => Panic
  }

  /** For a decoded object, the three outcomes of the `status` dispatch. */
  lemma DownloadJsonDispatch(obj: Fields)
    ensures Get(obj, "status").None? ==> DownloadJson(Received(Some(Object(obj)))) == Ok(obj)
    ensures Get(obj, "status").Some? && AsU64(Get(obj, "status").value) == Some(200)
            ==> DownloadJson(Received(Some(Object(obj)))) == Ok(obj)
    ensures forall m: string :: ApiError(obj, m) ==> DownloadJson(Received(Some(Object(obj)))) == Err(m)
    ensures DownloadJson(Received(Some(Object(obj)))).Err?
            <==> exists m: string :: ApiError(obj, m)
  {
    var r := DownloadJson(Received(Some(Object(obj))));
    if r.Err? {
      assert ApiError(obj, r.message);
    }
  }

  /** `.get("template").unwrap().as_object().unwrap().get("small").unwrap()
      .as_string().unwrap()`; None where an unwrap panics. */
  function SmallTemplate(obj: Fields): Option<string>
  {
    match Get(obj, "template")
    case Some(Object(templates)) =>
      (match Get(templates, "small")
       case Some(String(small)) => Some(small)
       case _ => None)
    case _ => None
  }

  // =====================================================================
  // Twitch catalog: global emotes
  // =====================================================================

  /** `value.as_object().unwrap().get("image_id").unwrap().as_u64().unwrap()`. */
  function ImageId(value: Json): Option<nat>
  {
    match value
    case Object(o) =>
      (match Get(o, "image_id")
       case Some(id) => AsU64(id)
       case None => None)
    case _ => None
  }

  /** What the loop over the `emotes` map pushes, or None when an entry
      panics. */
  function GlobalPairs(entries: Fields): Option<seq<Emote>>
  {
    if entries == [] then Some([])
    else
      var last := entries[|entries| - 1];
      match (GlobalPairs(entries[..|entries| - 1]), ImageId(last.1))
      case (Some(pairs), Some(id)) => Some(pairs + [Emote(last.0, Text.Decimal(id))])
      case _ => None
  }

  /** All or nothing, and one pair per entry, in the map's order, with the
      id written in decimal. */
  lemma {:induction false} GlobalPairsExact(entries: Fields)
    ensures GlobalPairs(entries).Some? <==> forall k | 0 <= k < |entries| :: ImageId(entries[k].1).Some?
    ensures GlobalPairs(entries).Some? ==>
              && |GlobalPairs(entries).value| == |entries|
              && forall k | 0 <= k < |entries| ::
                   GlobalPairs(entries).value[k] == Emote(entries[k].0, Text.Decimal(ImageId(entries[k].1).value))
  {
    if entries != [] {
      var init := entries[..|entries| - 1];
      GlobalPairsExact(init);
      assert forall k | 0 <= k < |init| :: init[k] == entries[k];
    }
  }

  /** Because the map's keys are sorted, the names come out in strictly
      ascending order, hence without repetition. */
  lemma GlobalPairsAscending(entries: Fields)
    requires SortedKeys(entries)
    requires GlobalPairs(entries).Some?
    ensures forall i, j | 0 <= i < j < |GlobalPairs(entries).value| ::
              StrLess(GlobalPairs(entries).value[i].name, GlobalPairs(entries).value[j].name)
  {
    GlobalPairsExact(entries);
  }

  /** `get_global_emotes` once the reply is known. */
  function ResolveGlobal(fetched: Outcome<Fields>): (r: Outcome<Catalog>)
    ensures fetched.Err? ==> r == Err(fetched.message)
    ensures r.Err? ==> fetched.Err?
    ensures r.Ok? ==>
              && fetched.Ok? && SmallTemplate(fetched.value) == Some(r.value.template)
              && Get(fetched.value, "emotes").Some? && Get(fetched.value, "emotes").value.Object?
              && GlobalPairs(Get(fetched.value, "emotes").value.fields) == Some(r.value.emotes)
    ensures (&& fetched.Ok? && SmallTemplate(fetched.value).Some?
             && Get(fetched.value, "emotes").Some? && Get(fetched.value, "emotes").value.Object?
             && GlobalPairs(Get(fetched.value, "emotes").value.fields).Some?)
            ==> r.Ok?
  {
    match fetched
    case Err(m) => Err(m)
    case Panic => Panic
    case Ok(obj) =>
      match SmallTemplate(obj)
      case None => Panic
      case Some(small) =>
        match Get(obj, "emotes")
        case None => Panic
        case Some(emotes) =>
          match AsObject(emotes)
          case None => Panic
          case Some(entries) =>
            match GlobalPairs(entries)
            case None => Panic
            case Some(pairs) => Ok(Catalog(small, pairs))
  }

  /** A response with one global emote resolves to one entry. */
  lemma GlobalExample()
    ensures ResolveGlobal(Ok([
              ("emotes", Object([("Kappa", Object([("image_id", Number(25))]))])),
              ("template", Object([("small", String("https://x/{image_id}/1.0"))]))]))
            == Ok(Catalog("https://x/{image_id}/1.0", [Emote("Kappa", "25")]))
  {
    var kappa: Fields := [("image_id", Number(25))];
    var emotes: Fields := [("Kappa", Object(kappa))];
    var templates: Fields := [("small", String("https://x/{image_id}/1.0"))];
    var obj: Fields := [("emotes", Object(emotes)), ("template", Object(templates))];
    assert obj[1..] == [("template", Object(templates))];
    assert Get(obj, "template") == Some(Object(templates));
    assert SmallTemplate(obj) == Some("https://x/{image_id}/1.0");
    assert Get(obj, "emotes") == Some(Object(emotes));
    assert ImageId(Object(kappa)) == Some(25);
    assert Text.Decimal(25) == "25";
    assert emotes[..0] == [];
    assert GlobalPairs(emotes[..0]) == Some([]);
    var none: seq<Emote> := [];
    assert none + [Emote("Kappa", "25")] == [Emote("Kappa", "25")];
    assert GlobalPairs(emotes) == Some([Emote("Kappa", "25")]);
  }

  // =====================================================================
  // Twitch catalog: subscriber emotes
  // =====================================================================

  /** What `update_sub_emote_data` keeps: the template and the `channels`
      value, which may be absent (`get(..).cloned()` does not unwrap). */
  datatype SubscriberData = SubscriberData(template: string, channels: Option<Json>)

  function ResolveSubscriber(fetched: Outcome<Fields>): (r: Outcome<SubscriberData>)
    ensures fetched.Err? ==> r == Err(fetched.message)
    ensures r.Err? ==> fetched.Err?
    ensures r.Ok? ==> fetched.Ok? && r.value.channels == Get(fetched.value, "channels")
                      && SmallTemplate(fetched.value) == Some(r.value.template)
    ensures fetched.Ok? && SmallTemplate(fetched.value).Some? ==> r.Ok?
  {
    match fetched
    case Err(m) => Err(m)
    case Panic => Panic
    case Ok(obj) =>
      match SmallTemplate(obj)
      case None => Panic
      case Some(small) => Ok(SubscriberData(small, Get(obj, "channels")))
  }

  /** The case-insensitive channel comparison. */
  predicate ChannelMatches(query: string, key: string)
  {
    Text.Lower(query) == Text.Lower(key)
  }

  lemma MatchExample()
    ensures ChannelMatches("Xqc", "xqc")
    ensures !ChannelMatches("xqc", "xqcow")
  {
    assert Text.Lower("Xqc") == "xqc";
  }

  /** One element of a channel's `emotes` array: `code` and `image_id`. */
  function SubEmote(e: Json): Option<Emote>
  {
    match e
    case Object(o) =>
      (match (Get(o, "code"), ImageId(e))
       case (Some(String(code)), Some(id)) => Some(Emote(code, Text.Decimal(id)))
       case _ => None)
    case _ => None
  }

  /** What the inner loop pushes for a channel's `emotes` array. */
  function SubEmotes(items: seq<Json>): Option<seq<Emote>>
  {
    if items == [] then Some([])
    else
      match (SubEmotes(items[..|items| - 1]), SubEmote(items[|items| - 1]))
      case (Some(pairs), Some(e)) => Some(pairs + [e])
      case _ => None
  }

  lemma {:induction false} SubEmotesExact(items: seq<Json>)
    ensures SubEmotes(items).Some? <==> forall k | 0 <= k < |items| :: SubEmote(items[k]).Some?
    ensures SubEmotes(items).Some? ==>
              && |SubEmotes(items).value| == |items|
              && forall k | 0 <= k < |items| :: SubEmotes(items).value[k] == SubEmote(items[k]).value
  {
    if items != [] {
      var init := items[..|items| - 1];
      SubEmotesExact(init);
      assert forall k | 0 <= k < |init| :: init[k] == items[k];
    }
  }

  /** `value.as_object().unwrap().get("emotes").unwrap().as_array().unwrap()`. */
  function ChannelItems(value: Json): Option<seq<Json>>
  {
    match value
    case Object(o) =>
      (match Get(o, "emotes")
       case Some(Array(items)) => Some(items)
       case _ => None)
    case _ => None
  }

  /** What one channel entry contributes to a lookup for `query`. */
  function ChannelContribution(query: string, entry: (string, Json)): Option<seq<Emote>>
  {
    if !ChannelMatches(query, entry.0) then Some([])
    else
      match ChannelItems(entry.1)
      case Some(items) => SubEmotes(items)
      case None => None
  }

  /** Joining two partial results, None if either panicked. */
  function Join(a: Option<seq<Emote>>, b: Option<seq<Emote>>): Option<seq<Emote>>
  {
    if a.Some? && b.Some? then Some(a.value + b.value) else None
  }

  /** What the scan over the channel map pushes: the emotes of every key
      that matches, in map order; None when a matching entry panics.
      Non-matching entries are never looked into. */
  function ChannelEmotes(query: string, channels: Fields): Option<seq<Emote>>
  {
    if channels == [] then Some([])
    else
      Join(ChannelEmotes(query, channels[..|channels| - 1]),
           ChannelContribution(query, channels[|channels| - 1]))
  }

  /** The scan visits every entry: the result over a concatenation is the
      concatenation of the results, so every matching key contributes and
      not only the first. */
  lemma JoinAssociative(x: Option<seq<Emote>>, y: Option<seq<Emote>>, z: Option<seq<Emote>>)
    ensures Join(Join(x, y), z) == Join(x, Join(y, z))
  {
    if x.Some? && y.Some? && z.Some? {
      assert (x.value + y.value) + z.value == x.value + (y.value + z.value);
    }
  }

  lemma ChannelEmotesStep(query: string, channels: Fields)
    requires channels != []
    ensures ChannelEmotes(query, channels)
         == Join(ChannelEmotes(query, channels[..|channels| - 1]),
                 ChannelContribution(query, channels[|channels| - 1]))
  {
  }

  lemma {:induction false} ChannelEmotesAppend(query: string, a: Fields, b: Fields)
    ensures ChannelEmotes(query, a + b) == Join(ChannelEmotes(query, a), ChannelEmotes(query, b))
    decreases |b|
  {
    if b == [] {
      assert a + b == a;
      if ChannelEmotes(query, a).Some? {
        assert ChannelEmotes(query, a).value + [] == ChannelEmotes(query, a).value;
      }
    } else {
      var b' := b[..|b| - 1];
      var last := b[|b| - 1];
      assert (a + b)[..|a + b| - 1] == a + b';
      assert (a + b)[|a + b| - 1] == last;
      ChannelEmotesStep(query, a + b);
      ChannelEmotesStep(query, b);
      ChannelEmotesAppend(query, a, b');
      JoinAssociative(ChannelEmotes(query, a), ChannelEmotes(query, b'), ChannelContribution(query, last));
    }
  }

  /** The scan panics exactly when the entry of some matching key does. */
  lemma {:induction false} ChannelEmotesDefined(query: string, channels: Fields)
    ensures ChannelEmotes(query, channels).Some? <==>
              forall k | 0 <= k < |channels| :: ChannelContribution(query, channels[k]).Some?
  {
    if channels != [] {
      var init := channels[..|channels| - 1];
      ChannelEmotesDefined(query, init);
      assert forall k | 0 <= k < |init| :: init[k] == channels[k];
    }
  }

  /** When a single key matches, the lookup is exactly what that key's
      entry contributes. */
  lemma ChannelEmotesSingle(query: string, channels: Fields, i: nat)
    requires i < |channels|
    requires forall k | 0 <= k < |channels| && k != i :: !ChannelMatches(query, channels[k].0)
    ensures ChannelEmotes(query, channels) == ChannelContribution(query, channels[i])
  {
    var before := channels[..i];
    var after := channels[i + 1..];
    assert forall k | 0 <= k < |before| :: before[k] == channels[k];
    assert forall k | 0 <= k < |after| :: after[k] == channels[i + 1 + k];
    ChannelEmotesNoMatch(query, before);
    ChannelEmotesNoMatch(query, after);
    ChannelEmotesPrefix(query, channels, i);
    ChannelEmotesAppend(query, channels[..i + 1], after);
    assert channels[..i + 1] + after == channels;
    var c := ChannelContribution(query, channels[i]);
    if c.Some? {
      var none: seq<Emote> := [];
      assert none + c.value == c.value && c.value + none == c.value;
    }
  }

  /** The scan one entry further along. */
  lemma ChannelEmotesPrefix(query: string, channels: Fields, i: nat)
    requires i < |channels|
    ensures ChannelEmotes(query, channels[..i + 1])
         == Join(ChannelEmotes(query, channels[..i]), ChannelContribution(query, channels[i]))
  {
    var upto := channels[..i + 1];
    assert upto[..i] == channels[..i] && upto[i] == channels[i];
    ChannelEmotesStep(query, upto);
  }

  /** A matching entry that panics makes the whole lookup panic. */
  lemma ChannelEmotesStopsAt(query: string, channels: Fields, i: nat)
    requires i < |channels|
    requires ChannelContribution(query, channels[i]).None?
    ensures ChannelEmotes(query, channels).None?
  {
    var upto := channels[..i + 1];
    assert upto[..i] == channels[..i] && upto[i] == channels[i];
    ChannelEmotesStep(query, upto);
    ChannelEmotesAppend(query, upto, channels[i + 1..]);
    assert upto + channels[i + 1..] == channels;
  }

  /** A lookup with no matching key pushes nothing. */
  lemma {:induction false} ChannelEmotesNoMatch(query: string, channels: Fields)
    requires forall k | 0 <= k < |channels| :: !ChannelMatches(query, channels[k].0)
    ensures ChannelEmotes(query, channels) == Some([])
  {
    if channels != [] {
      var init := channels[..|channels| - 1];
      assert forall k | 0 <= k < |init| :: init[k] == channels[k];
      ChannelEmotesNoMatch(query, init);
      assert !ChannelMatches(query, channels[|channels| - 1].0);
      assert ChannelContribution(query, channels[|channels| - 1]) == Some([]);
      assert Join(Some([]), Some([])) == Some([] + []);
      var none: seq<Emote> := [];
      assert none + none == none;
    }
  }

  /** Queries that agree up to case give the same lookup. */
  lemma {:induction false} ChannelEmotesCaseInsensitive(q1: string, q2: string, channels: Fields)
    requires Text.Lower(q1) == Text.Lower(q2)
    ensures ChannelEmotes(q1, channels) == ChannelEmotes(q2, channels)
  {
    if channels != [] {
      ChannelEmotesCaseInsensitive(q1, q2, channels[..|channels| - 1]);
    }
  }

  /** The part of `get_subscriber_emotes` after the cache check: the
      channel map must be present and an object; zero emotes found is the
      error "No emotes found". */
  function SubscriberLookup(channel: string, channels: Option<Json>): (r: Outcome<seq<Emote>>)
    ensures r.Err? ==> r.message == "No emotes found"
    ensures r.Ok? ==> r.value != []
    ensures r.Ok? || r.Err? <==>
              channels.Some? && channels.value.Object? && ChannelEmotes(channel, channels.value.fields).Some?
    ensures r.Ok? || r.Err? ==>
              ChannelEmotes(channel, channels.value.fields) == Some(if r.Ok? then r.value else [])
  {
    match channels
    case None => Panic
    case Some(j) =>
      match AsObject(j)
      case None => Panic
      case Some(chans) =>
        match ChannelEmotes(channel, chans)
        case None => Panic
        case Some(found) => if found == [] then Err("No emotes found") else Ok(found)
  }

  /** A channel that no key of the map matches is the error "No emotes
      found", not a panic and not an empty success. */
  lemma SubscriberLookupNoMatch(channel: string, channels: Fields)
    requires forall k | 0 <= k < |channels| :: !ChannelMatches(channel, channels[k].0)
    ensures SubscriberLookup(channel, Some(Object(channels))) == Err("No emotes found")
  {
    ChannelEmotesNoMatch(channel, channels);
  }

  // =====================================================================
  // BetterTTV catalog
  // =====================================================================

  /** `code`, `id` and `imageType` of one element of the `emotes` array, all
      three unwrapped as strings before `imageType` is looked at. */
  datatype BttvEntry = BttvEntry(code: string, id: string, imageType: string)

  function DecodeBttvEntry(e: Json): Option<BttvEntry>
  {
    match e
    case Object(o) =>
      (match (Get(o, "code"), Get(o, "id"), Get(o, "imageType"))
       case (Some(String(code)), Some(String(id)), Some(String(imageType))) =>
         Some(BttvEntry(code, id, imageType))
       case _ => None)
    case _ => None
  }

  /** What the loop over the `emotes` array pushes: `png` entries only. */
  function BttvPairs(items: seq<Json>): Option<seq<Emote>>
  {
    if items == [] then Some([])
    else
      match (BttvPairs(items[..|items| - 1]), DecodeBttvEntry(items[|items| - 1]))
      case (Some(pairs), Some(e)) =>
        Some(if e.imageType == "png" then pairs + [Emote(e.code, e.id)] else pairs)
      case _ => None
  }

  /** A reference definition of the same: decode every element ... */
  function DecodeAll(items: seq<Json>): Option<seq<BttvEntry>>
  {
    if items == [] then Some([])
    else
      match (DecodeBttvEntry(items[0]), DecodeAll(items[1..]))
      case (Some(e), Some(rest)) => Some([e] + rest)
      case _ => None
  }

  /** ... then keep the `png` entries, in order. */
  function PngOnly(entries: seq<BttvEntry>): seq<Emote>
  {
    if entries == [] then []
    else
      (if entries[0].imageType == "png" then [Emote(entries[0].code, entries[0].id)] else [])
      + PngOnly(entries[1..])
  }

  /** The number of `png` entries. */
  function PngCount(entries: seq<BttvEntry>): nat
  {
    if entries == [] then 0
    else (if entries[0].imageType == "png" then 1 else 0) + PngCount(entries[1..])
  }

  lemma {:induction false} PngOnlyAppend(a: seq<BttvEntry>, b: seq<BttvEntry>)
    ensures PngOnly(a + b) == PngOnly(a) + PngOnly(b)
  {
    if a == [] {
      assert a + b == b;
    } else {
      var ab := a + b;
      assert ab[0] == a[0];
      assert ab[1..] == a[1..] + b;
      var head: seq<Emote> := if a[0].imageType == "png" then [Emote(a[0].code, a[0].id)] else [];
      assert PngOnly(ab) == head + PngOnly(a[1..] + b);
      PngOnlyAppend(a[1..], b);
      assert PngOnly(a) == head + PngOnly(a[1..]);
      assert head + (PngOnly(a[1..]) + PngOnly(b)) == (head + PngOnly(a[1..])) + PngOnly(b);
    }
  }

  lemma {:induction false} DecodeAllAppendOne(items: seq<Json>, x: Json)
    ensures DecodeAll(items + [x]) ==
              if DecodeAll(items).Some? && DecodeBttvEntry(x).Some?
              then Some(DecodeAll(items).value + [DecodeBttvEntry(x).value]) else None
  {
    if items != [] {
      assert (items + [x])[0] == items[0];
      assert (items + [x])[1..] == items[1..] + [x];
      DecodeAllAppendOne(items[1..], x);
      var h, t, d := DecodeBttvEntry(items[0]), DecodeAll(items[1..]), DecodeBttvEntry(x);
      if h.Some? && t.Some? && d.Some? {
        assert [h.value] + (t.value + [d.value]) == ([h.value] + t.value) + [d.value];
      }
    } else {
      assert items + [x] == [x];
      assert [x][1..] == [];
      assert DecodeAll([x][1..]) == Some([]);
      if DecodeBttvEntry(x).Some? {
        var e := DecodeBttvEntry(x).value;
        assert [e] + [] == [] + [e];
      }
    }
  }

  /** The loop's result is the reference filter over the decoded array,
      and it fails exactly when some element fails to decode: an entry
      that is neither `png` nor `gif` is skipped, not an error. */
  lemma {:induction false} BttvPairsIsFilter(items: seq<Json>)
    ensures BttvPairs(items) ==
              if DecodeAll(items).Some? then Some(PngOnly(DecodeAll(items).value)) else None
  {
    if items != [] {
      var init := items[..|items| - 1];
      var x := items[|items| - 1];
      assert items == init + [x];
      BttvPairsIsFilter(init);
      DecodeAllAppendOne(init, x);
      if DecodeAll(init).Some? && DecodeBttvEntry(x).Some? {
        var e := DecodeBttvEntry(x).value;
        PngOnlyAppend(DecodeAll(init).value, [e]);
        assert [e][1..] == [];
        var one: seq<Emote> := if e.imageType == "png" then [Emote(e.code, e.id)] else [];
        assert PngOnly([e]) == one + [];
        assert one + [] == one;
        var before := PngOnly(DecodeAll(init).value);
        assert before + [] == before;
      }
    }
  }

  /** One emote per `png` entry, and nothing else. */
  lemma {:induction false} PngOnlyExact(entries: seq<BttvEntry>)
    ensures |PngOnly(entries)| == PngCount(entries)
    ensures forall k | 0 <= k < |entries| && entries[k].imageType == "png" ::
              Emote(entries[k].code, entries[k].id) in PngOnly(entries)
    ensures forall e | e in PngOnly(entries) ::
              exists k | 0 <= k < |entries| :: entries[k].imageType == "png" && e == Emote(entries[k].code, entries[k].id)
  {
    if entries != [] {
      var rest := entries[1..];
      PngOnlyExact(rest);
      forall e | e in PngOnly(entries)
        ensures exists k | 0 <= k < |entries| ::
                  entries[k].imageType == "png" && e == Emote(entries[k].code, entries[k].id)
      {
        if e !in PngOnly(rest) {
          assert entries[0].imageType == "png" && e == Emote(entries[0].code, entries[0].id);
        } else {
          var k :| 0 <= k < |rest| && rest[k].imageType == "png" && e == Emote(rest[k].code, rest[k].id);
          assert entries[k + 1] == rest[k];
        }
      }
      forall k | 0 <= k < |entries| && entries[k].imageType == "png"
        ensures Emote(entries[k].code, entries[k].id) in PngOnly(entries)
      {
        if k > 0 {
          assert rest[k - 1] == entries[k];
        }
      }
    }
  }

  /** The BTTV template: every `{{image}}` becomes `1x`, and the scheme
      `https:` is put in front whatever the template already starts with. */
  function BttvTemplate(urlTemplate: string): (t: string)
    ensures Text.StartsWith(t, "https:")
  {
    "https:" + Text.ReplaceAll(urlTemplate, "{{image}}", "1x")
  }

  lemma BttvTemplateShape(urlTemplate: string)
    ensures BttvTemplate(urlTemplate)[..6] == "https:"
    ensures !Text.Occurs(BttvTemplate(urlTemplate)[6..], "{{image}}")
    ensures !Text.Occurs(urlTemplate, "{{image}}") ==> BttvTemplate(urlTemplate) == "https:" + urlTemplate
  {
    assert Text.Disjoint("1x", "{{image}}");
    Text.ReplaceAllRemoves(urlTemplate, "{{image}}", "1x");
    assert BttvTemplate(urlTemplate)[6..] == Text.ReplaceAll(urlTemplate, "{{image}}", "1x");
    if !Text.Occurs(urlTemplate, "{{image}}") {
      Text.ReplaceAllNoMatch(urlTemplate, "{{image}}", "1x");
    }
  }

  /** Both BTTV calls once the reply is known. */
  function ResolveBttv(fetched: Outcome<Fields>): (r: Outcome<Catalog>)
    ensures fetched.Err? ==> r == Err(fetched.message)
    ensures r.Err? ==> fetched.Err?
    ensures r.Ok? ==>
              && fetched.Ok?
              && Get(fetched.value, "urlTemplate").Some? && Get(fetched.value, "urlTemplate").value.String?
              && r.value.template == BttvTemplate(Get(fetched.value, "urlTemplate").value.s)
              && Get(fetched.value, "emotes").Some? && Get(fetched.value, "emotes").value.Array?
              && BttvPairs(Get(fetched.value, "emotes").value.items) == Some(r.value.emotes)
    ensures (&& fetched.Ok?
             && Get(fetched.value, "urlTemplate").Some? && Get(fetched.value, "urlTemplate").value.String?
             && Get(fetched.value, "emotes").Some? && Get(fetched.value, "emotes").value.Array?
             && BttvPairs(Get(fetched.value, "emotes").value.items).Some?)
            ==> r.Ok?
  {
    match fetched
    case Err(m) => Err(m)
    case Panic => Panic
    case Ok(obj) =>
      match Get(obj, "urlTemplate")
      case Some(String(u)) =>
        (match Get(obj, "emotes")
         case Some(Array(items)) =>
           (match BttvPairs(items)
            case None => Panic
            case Some(pairs) => Ok(Catalog(BttvTemplate(u), pairs)))
         case _ => Panic)
      case _ => Panic
  }

  // =====================================================================
  // The two catalogs
  // =====================================================================

  /** `TTVEmoteData`. */
  class TtvEmoteData {
    var template: string
    var data: seq<Emote>
    var subEmotes: Option<Json>

    constructor ()
      ensures template == "" && data == [] && subEmotes == None
    {
      template := "";
      data := [];
      subEmotes := None;
    }

    /** Sets the template to `template.small` and appends one entry per
        element of the `emotes` map. A fetch error changes nothing. */
    method GetGlobalEmotes(net: Network) returns (r: Outcome<()>)
      modifies this, net
      ensures net.requests == old(net.requests) + [GlobalUrl]
      ensures subEmotes == old(subEmotes)
      ensures var res := ResolveGlobal(DownloadJson(net.reply(|old(net.requests)|)));
              && r == Status(res)
              && (res.Ok? ==> template == res.value.template && data == old(data) + res.value.emotes)
              && (res.Err? ==> template == old(template) && data == old(data))
    {
      var reply := net.Get(GlobalUrl);
      var fetched := DownloadJson(reply);
      if fetched.Err? {
        return Err(fetched.message);
      }
      if fetched.Panic? {
        return Panic;
      }
      var obj := fetched.value;
      var small := SmallTemplate(obj);
      if small.None? {
        return Panic;
      }
      template := small.value;
      var emotes := Get(obj, "emotes");
      if emotes.None? || !emotes.value.Object? {
        return Panic;
      }
      var ok := PushGlobalEntries(emotes.value.fields);
      r := if ok then Ok(()) else Panic;
    }

    /** The loop over the `emotes` map: one entry per element, named by its
        key and identified by its decimal `image_id`; false on a panic. */
    method PushGlobalEntries(entries: Fields) returns (ok: bool)
      modifies this
      ensures template == old(template) && subEmotes == old(subEmotes)
      ensures ok <==> GlobalPairs(entries).Some?
      ensures ok ==> data == old(data) + GlobalPairs(entries).value
    {
      for i := 0 to |entries|
        invariant template == old(template) && subEmotes == old(subEmotes)
        invariant GlobalPairs(entries[..i]).Some?
        invariant data == old(data) + GlobalPairs(entries[..i]).value
      {
        var id := ImageId(entries[i].1);
        if id.None? {
          GlobalPairsExact(entries);
          return false;
        }
        assert entries[..i + 1][..i] == entries[..i];
        data := data + [Emote(entries[i].0, Text.Decimal(id.value))];
      }
      assert entries[..|entries|] == entries;
      ok := true;
    }

    /** Sets the template again and caches the `channels` value. */
    method UpdateSubEmoteData(net: Network) returns (r: Outcome<()>)
      modifies this, net
      ensures net.requests == old(net.requests) + [SubscriberUrl]
      ensures data == old(data)
      ensures var res := ResolveSubscriber(DownloadJson(net.reply(|old(net.requests)|)));
              && r == Status(res)
              && (res.Ok? ==> template == res.value.template && subEmotes == res.value.channels)
              && (res.Err? ==> template == old(template) && subEmotes == old(subEmotes))
    {
      var reply := net.Get(SubscriberUrl);
      var fetched := DownloadJson(reply);
      if fetched.Err? {
        return Err(fetched.message);
      }
      if fetched.Panic? {
        return Panic;
      }
      var small := SmallTemplate(fetched.value);
      if small.None? {
        return Panic;
      }
      template := small.value;
      subEmotes := Get(fetched.value, "channels");
      r := Ok(());
    }

    /** Fetches the subscriber data only when none is cached, then appends
        the emotes of every channel whose name equals `channel` up to case;
        finding none is an error. */
    method GetSubscriberEmotes(channel: string, net: Network) returns (r: Outcome<()>)
      modifies this, net
      ensures old(subEmotes).Some? ==> net.requests == old(net.requests)
      ensures old(subEmotes).None? ==> net.requests == old(net.requests) + [SubscriberUrl]
      ensures var source :=
                if old(subEmotes).Some? then Ok(SubscriberData(old(template), old(subEmotes)))
                else ResolveSubscriber(DownloadJson(net.reply(|old(net.requests)|)));
              && (source.Err? ==>
                    r == Err(source.message) && template == old(template)
                    && subEmotes == old(subEmotes) && data == old(data))
              && (source.Panic? ==> r == Panic)
              && (source.Ok? ==>
                    template == source.value.template && subEmotes == source.value.channels
                    && var found := SubscriberLookup(channel, source.value.channels);
                       && r == Status(found)
                       && (found.Ok? ==> data == old(data) + found.value)
                       && (found.Err? ==> data == old(data)))
    {
      if subEmotes == None {
        var u := UpdateSubEmoteData(net);
        if !u.Ok? {
          return u;
        }
      }
      if subEmotes.None? || !subEmotes.value.Object? {
        return Panic;
      }
      r := CollectChannelEmotes(channel, subEmotes.value.fields);
    }

    /** The loop over the cached channels: appends the emotes of every
        channel whose lower-cased name equals the lower-cased `channel`. */
    method CollectChannelEmotes(channel: string, channels: Fields) returns (r: Outcome<()>)
      modifies this
      ensures template == old(template) && subEmotes == old(subEmotes)
      ensures var found := SubscriberLookup(channel, Some(Object(channels)));
              && r == Status(found)
              && (found.Ok? ==> data == old(data) + found.value)
              && (found.Err? ==> data == old(data))
    {
      ghost var start := data;
      var count := 0;
      for i := 0 to |channels|
        invariant template == old(template) && subEmotes == old(subEmotes)
        invariant ChannelEmotes(channel, channels[..i]).Some?
        invariant data == start + ChannelEmotes(channel, channels[..i]).value
        invariant count == |data| - |start|
      {
        ghost var prev := ChannelEmotes(channel, channels[..i]).value;
        ChannelEmotesPrefix(channel, channels, i);
        var ok, added := ScanEntry(channel, channels[i]);
        if !ok {
          ChannelEmotesStopsAt(channel, channels, i);
          return Panic;
        }
        ghost var more := ChannelContribution(channel, channels[i]).value;
        assert data == (start + prev) + more;
        assert (start + prev) + more == start + (prev + more);
        count := count + added;
      }
      assert channels[..|channels|] == channels;
      if count == 0 {
        r := Err("No emotes found");
      } else {
        r := Ok(());
      }
    }

    /** One entry of the channel map: nothing when its key does not match,
        otherwise the emotes of its `emotes` array; false on a panic. */
    method ScanEntry(channel: string, entry: (string, Json)) returns (ok: bool, added: nat)
      modifies this
      ensures template == old(template) && subEmotes == old(subEmotes)
      ensures ok <==> ChannelContribution(channel, entry).Some?
      ensures ok ==> data == old(data) + ChannelContribution(channel, entry).value
                     && added == |ChannelContribution(channel, entry).value|
    {
      if Text.Lower(channel) != Text.Lower(entry.0) {
        assert data == data + [];
        return true, 0;
      }
      var items := ChannelItems(entry.1);
      if items.None? {
        return false, 0;
      }
      ok := PushSubEmotes(items.value);
      added := if ok then |SubEmotes(items.value).value| else 0;
    }

    /** The inner loop of the lookup: pushes one `Emote` per element of a
        matching channel's `emotes` array; false when an element panics. */
    method PushSubEmotes(emotes: seq<Json>) returns (ok: bool)
      modifies this
      ensures template == old(template) && subEmotes == old(subEmotes)
      ensures ok <==> SubEmotes(emotes).Some?
      ensures ok ==> data == old(data) + SubEmotes(emotes).value
    {
      for j := 0 to |emotes|
        invariant template == old(template) && subEmotes == old(subEmotes)
        invariant SubEmotes(emotes[..j]).Some?
        invariant data == old(data) + SubEmotes(emotes[..j]).value
      {
        assert emotes[..j + 1][..j] == emotes[..j];
        var e := SubEmote(emotes[j]);
        if e.None? {
          SubEmotesExact(emotes);
          return false;
        }
        data := data + [e.value];
      }
      assert emotes[..|emotes|] == emotes;
      ok := true;
    }
  }

  /** `BTTVEmoteData`. */
  class BttvEmoteData {
    var template: string
    var data: seq<Emote>

    constructor ()
      ensures template == "" && data == []
    {
      template := "";
      data := [];
    }

    method GetGlobalBttvEmotes(net: Network) returns (r: Outcome<()>)
      modifies this, net
      ensures net.requests == old(net.requests) + [BttvGlobalUrl]
      ensures var res := ResolveBttv(DownloadJson(net.reply(|old(net.requests)|)));
              && r == Status(res)
              && (res.Ok? ==> template == res.value.template && data == old(data) + res.value.emotes)
              && (res.Err? ==> template == old(template) && data == old(data))
    {
      r := Absorb(BttvGlobalUrl, net);
    }

    method GetChannelBttvEmotes(channel: string, net: Network) returns (r: Outcome<()>)
      modifies this, net
      ensures net.requests == old(net.requests) + [BttvChannelUrl(channel)]
      ensures var res := ResolveBttv(DownloadJson(net.reply(|old(net.requests)|)));
              && r == Status(res)
              && (res.Ok? ==> template == res.value.template && data == old(data) + res.value.emotes)
              && (res.Err? ==> template == old(template) && data == old(data))
    {
      r := Absorb(BttvChannelUrl(channel), net);
    }

    /** The body both BTTV calls share: fetch `url`, overwrite the template,
        append the `png` entries. */
    method Absorb(url: string, net: Network) returns (r: Outcome<()>)
      modifies this, net
      ensures net.requests == old(net.requests) + [url]
      ensures var res := ResolveBttv(DownloadJson(net.reply(|old(net.requests)|)));
              && r == Status(res)
              && (res.Ok? ==> template == res.value.template && data == old(data) + res.value.emotes)
              && (res.Err? ==> template == old(template) && data == old(data))
    {
      var reply := net.Get(url);
      var fetched := DownloadJson(reply);
      if fetched.Err? {
        return Err(fetched.message);
      }
      if fetched.Panic? {
        return Panic;
      }
      var obj := fetched.value;
      var u := Get(obj, "urlTemplate");
      if u.None? || !u.value.String? {
        return Panic;
      }
      template := BttvTemplate(u.value.s);
      var emotes := Get(obj, "emotes");
      if emotes.None? || !emotes.value.Array? {
        return Panic;
      }
      var ok := PushPngEntries(emotes.value.items);
      r := if ok then Ok(()) else Panic;
    }

    /** The loop over the `emotes` array: pushes every `png` entry, skips
        `gif` and any other type; false when an element panics. */
    method PushPngEntries(items: seq<Json>) returns (ok: bool)
      modifies this
      ensures template == old(template)
      ensures ok <==> BttvPairs(items).Some?
      ensures ok ==> data == old(data) + BttvPairs(items).value
    {
      for i := 0 to |items|
        invariant template == old(template)
        invariant BttvPairs(items[..i]).Some?
        invariant data == old(data) + BttvPairs(items[..i]).value
      {
        assert items[..i + 1][..i] == items[..i];
        var e := DecodeBttvEntry(items[i]);
        if e.None? {
          BttvPairsNone(items, i);
          return false;
        }
        match e.value.imageType {
          case "png" => data := data + [Emote(e.value.code, e.value.id)];
          case "gif" =>
          case _ =>
        }
      }
      assert items[..|items|] == items;
      ok := true;
    }
  }

  /** An element that fails to decode makes the whole loop panic. */
  lemma {:induction false} BttvPairsNone(items: seq<Json>, i: nat)
    requires i < |items|
    requires DecodeBttvEntry(items[i]).None?
    ensures BttvPairs(items).None?
    decreases |items|
  {
    if i < |items| - 1 {
      var init := items[..|items| - 1];
      assert init[i] == items[i];
      BttvPairsNone(init, i);
    }
  }
}
