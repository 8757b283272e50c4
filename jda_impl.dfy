/**
 * The session object of the client library: four entity caches, the offline private-channel
 * map, the authenticated account, the session token, the transport client and the payload
 * counter, with the login flow and the read accessors over them.
 */
module JdaImpl {
  import opened Wrappers
  import opened TokenStore
  import opened Login
  import Listing

  /** Java's 32-bit `int`. */
  newtype int32 = x: int | -0x8000_0000 <= x < 0x8000_0000

  datatype User = User(id: string, username: string)
  datatype Guild = Guild(id: string, name: string)
  datatype TextChannel = TextChannel(id: string, guildId: string, name: string)
  datatype VoiceChannel = VoiceChannel(id: string, guildId: string, name: string)
  /** The logged-in account. */
  datatype SelfInfo = SelfInfo(id: string, username: string, email: string)

  class JDAImpl {
    var userMap: map<string, User>
    var guildMap: map<string, Guild>
    var channelMap: map<string, TextChannel>
    var voiceChannelMap: map<string, VoiceChannel>
    /** User id to the id of a private channel already opened with that user. */
    var offlinePms: map<string, string>
    var selfInfo: Option<SelfInfo>
    var authToken: Option<string>
    var client: Option<WebSocketClient>
    var responseTotal: int32

    /** A new session: empty caches, no account, no token, no client, no payloads counted. */
    constructor ()
      ensures userMap == map[] && guildMap == map[] && channelMap == map[] && voiceChannelMap == map[]
      ensures offlinePms == map[]
      ensures GetSelfInfo() == None
      ensures authToken == None && client == None
      ensures GetResponseTotal() == 0
    {
      userMap, guildMap, channelMap, voiceChannelMap := map[], map[], map[], map[];
      offlinePms := map[];
      selfInfo, authToken, client := None, None, None;
      responseTotal := 0;
    }

    /**
     * Logs in with `email` and `password`. `file` is what reading `tokens.json` yields and
     * `net` the replies the HTTP calls receive; `requests` are the calls made and `written`
     * the document handed to `writeJson` (None: nothing written). Only the token and the
     * client change.
     */
    method Login(email: Option<string>, password: Option<string>, file: TokenFile, net: Network)
      returns (outcome: Outcome, requests: seq<Request>, written: Option<Config>)
      modifies this`authToken, this`client
      ensures Effect(outcome, requests, authToken, written, client)
           == LoginSpec(old(authToken), old(client), email, password, file, net)
    {
      requests, written := [], None;
      if email.None? || |email.value| == 0 || password.None? || |password.value| == 0 {
        outcome := ThrewIllegalArgument;
        return;
      }
      var em, pw := email.value, password.value;
      var configs := ReadConfig(file);
      var gateway: Option<string> := None;

      if configs.tokens.None? {
        // getJSONObject("tokens") throws
        outcome := ThrewJson;
        return;
      }
      var tokens := configs.tokens.value;
      if em in tokens {
        // getString(email) throws for a non-string entry; that is caught and leaves gateway null
        if tokens[em].Str? {
          authToken := Some(tokens[em].s);
          requests := requests + [GetGateway(tokens[em].s)];
          if net.cached.Url? {
            gateway := Some(net.cached.url);
          }
        }
      }

      if gateway.None? {
        requests := requests + [PostLogin(em, pw)];
        match net.login {
          case LoginUnreachable =>
          case EmptyBody =>
            outcome := ThrewLogin;
            return;
          case NoToken =>
            outcome := ThrewJson;
            return;
          case Issued(t) =>
            authToken := Some(t);
            configs := configs.(tokens := Some(tokens[em := Str(t)]));
            requests := requests + [GetGateway(t)];
            match net.afterLogin {
              case Url(u) =>
                gateway := Some(u);
              case GatewayUnreachable =>
              case NoUrl =>
                outcome := ThrewJson;
                return;
            }
        }
      }

      written := Some(configs);
      client := Some(WebSocketClient(gateway));
      outcome := Returned;
    }

    /** A snapshot of the cached users, one per cache entry. */
    method GetUsers() returns (users: seq<User>)
      ensures Listing.ListsValues(userMap, users)
      ensures |users| == |userMap|
      ensures forall id :: id in userMap ==> userMap[id] in users
      ensures forall i :: 0 <= i < |users| ==> users[i] in userMap.Values
    {
      users := Listing.Values(userMap);
    }

    function GetUserById(id: string): (u: Option<User>)
      reads this
      ensures u.Some? <==> id in userMap
      ensures u.Some? ==> u.value == userMap[id]
    {
      if id in userMap then Some(userMap[id]) else None
    }

    /** A snapshot of the cached guilds, one per cache entry. */
    method GetGuilds() returns (guilds: seq<Guild>)
      ensures Listing.ListsValues(guildMap, guilds)
      ensures |guilds| == |guildMap|
      ensures forall id :: id in guildMap ==> guildMap[id] in guilds
      ensures forall i :: 0 <= i < |guilds| ==> guilds[i] in guildMap.Values
    {
      guilds := Listing.Values(guildMap);
    }

    function GetGuildById(id: string): (g: Option<Guild>)
      reads this
      ensures g.Some? <==> id in guildMap
      ensures g.Some? ==> g.value == guildMap[id]
    {
      if id in guildMap then Some(guildMap[id]) else None
    }

    /** A snapshot of the cached text channels, one per cache entry. */
    method GetTextChannels() returns (channels: seq<TextChannel>)
      ensures Listing.ListsValues(channelMap, channels)
      ensures |channels| == |channelMap|
      ensures forall id :: id in channelMap ==> channelMap[id] in channels
      ensures forall i :: 0 <= i < |channels| ==> channels[i] in channelMap.Values
    {
      channels := Listing.Values(channelMap);
    }

    function GetTextChannelById(id: string): (c: Option<TextChannel>)
      reads this
      ensures c.Some? <==> id in channelMap
      ensures c.Some? ==> c.value == channelMap[id]
    {
      if id in channelMap then Some(channelMap[id]) else None
    }

    /** A snapshot of the cached voice channels, one per cache entry. */
    method GetVoiceChannels() returns (channels: seq<VoiceChannel>)
      ensures Listing.ListsValues(voiceChannelMap, channels)
      ensures |channels| == |voiceChannelMap|
      ensures forall id :: id in voiceChannelMap ==> voiceChannelMap[id] in channels
      ensures forall i :: 0 <= i < |channels| ==> channels[i] in voiceChannelMap.Values
    {
      channels := Listing.Values(voiceChannelMap);
    }

    function GetVoiceChannelById(id: string): (c: Option<VoiceChannel>)
      reads this
      ensures c.Some? <==> id in voiceChannelMap
      ensures c.Some? ==> c.value == voiceChannelMap[id]
    {
      if id in voiceChannelMap then Some(voiceChannelMap[id]) else None
    }

    function GetSelfInfo(): (info: Option<SelfInfo>)
      reads this
    {
      selfInfo
    }

    /** Records the logged-in account; the argument may be null, as in the source. */
    method SetSelfInfo(info: Option<SelfInfo>)
      modifies this`selfInfo
      ensures GetSelfInfo() == info
    {
      selfInfo := info;
    }

    function GetResponseTotal(): (total: int32)
      reads this
    {
      responseTotal
    }

    /** Overwrites the payload counter with any value, larger or smaller. */
    method SetResponseTotal(total: int32)
      modifies this`responseTotal
      ensures GetResponseTotal() == total
    {
      responseTotal := total;
    }
  }
}
