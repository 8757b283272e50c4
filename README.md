# JDA session core: login, entity caches, message-delete accessors

This project models two pieces of the JDA chat-client library in Dafny.

1. **`JDAImpl`**, the session object, as the class `JdaImpl.JDAImpl`. It has the four entity caches
   (`userMap`, `guildMap`, `channelMap`, `voiceChannelMap`), the offline private-channel map,
   the logged-in account (`selfInfo`), the session token (`authToken`), the transport client
   and the payload counter (`responseTotal`).
   - `Login` follows `login` step by step. It validates the arguments. It loads the token
     document, falling back to `{tokens: {}, version: 1}`. It tries the cached token for the
     email. It performs a fresh login only when no gateway was obtained. It stores the fresh
     token under the email, then writes the document back and builds the client.
   - The method is proved equal to the pure function `Login.LoginSpec`. The properties of the
     flow are stated in that function's contract and in lemmas about it.
   - The getters return snapshots of the caches or single entries of them.
2. **`MessageDeleteEvent`**, as the datatype `MessageDelete.MessageDeleteEvent`. Its accessors give
   the event's channel as a private channel, a group or a text channel (or the text channel's
   guild) exactly when the channel has that type, and null otherwise.

Inputs and outputs stand in for the I/O:
- The token file is an input `TokenStore.TokenFile`: missing, unreadable, unparsable, or a parsed
  document.
- Each HTTP call's reply is a field of `Login.Network`.
- `Login` returns the requests it made and the document it handed to `writeJson`.
- The client is recorded only by the gateway it was built with.
- Java's `null` is `None`.

Behaviour of the code that the model keeps, where a reader might expect otherwise:
- A JSON error is not always recovered. If the parsed token document has no `tokens` object,
  `login` lets the `JSONException` escape (`ThrewJson`). The same happens for a non-empty login
  reply without a string `token`, and for a gateway reply without a `url` after a fresh login.
  Only `UnirestException` is caught on the fresh path.
- A network failure on the fresh path does not fail the login. The document is written, and the
  client is built with a null gateway.
- The token file is truncated and rewritten, not replaced atomically. No serialise/parse round
  trip is claimed. `SecondLoginReusesToken` takes reading back the written document as its
  hypothesis.
- `setResponseTotal` overwrites the counter with any value, so nothing makes it monotonic.
  `setSelfInfo` may be called any number of times, with null as well.
- An IOException while writing the file is caught and logged. It changes nothing that is modelled.

## Model

| member | source | states |
|---|---|---|
| TokenStore.DefaultConfig | src/main/java/net/dv8tion/jda/entities/impl/JDAImpl.java:88-91 | the fallback document has an empty tokens object and version 1, and nothing else |
| TokenStore.ReadConfig | src/main/java/net/dv8tion/jda/entities/impl/JDAImpl.java:156-172 | a parsed file yields its own document; a missing, unreadable or unparsable file yields the default one; the tokens object is missing only if the parsed file lacks it |
| Login.CachedToken | src/main/java/net/dv8tion/jda/entities/impl/JDAImpl.java:95-99 | a cached token exists exactly when the tokens object maps the email to a string, and it is that string |
| Login.CachedGateway | src/main/java/net/dv8tion/jda/entities/impl/JDAImpl.java:97-111 | the cached attempt yields a gateway exactly when there is a cached token and the reply carries a url; every other failure leaves the gateway null |
| Login.LoginSpec | src/main/java/net/dv8tion/jda/entities/impl/JDAImpl.java:76-146 | bad arguments throw IllegalArgument with no request, write or state change; a document without tokens throws before any request; on the cached path only the gateway request is sent, the cached token is kept and the document is written unchanged; on the fresh path the requests are the cached probe, the login and the gateway request in that order; an empty reply throws LoginException with nothing written and the client kept; an issued token becomes the auth token and replaces the email's entry, after which a url reply builds the client with that url and a reply without url throws the JSON exception; the document is written and a client built exactly when login returns; the gateway is null exactly when a fresh-path network call failed; at most three requests, and at least one once the arguments are valid and the tokens object exists |
| Login.FreshLoginKeepsOtherAccounts | src/main/java/net/dv8tion/jda/entities/impl/JDAImpl.java:127-128 | after a fresh login the written tokens are the old ones plus the email, whose entry is the new token; every other account's entry and every other top-level member is unchanged |
| Login.SecondLoginReusesToken | src/main/java/net/dv8tion/jda/entities/impl/JDAImpl.java:95-102 | after a login that returned with a cached or freshly issued token (even if the gateway call after the fresh login failed), a second login for the same email reading back the written document sends only one gateway request with the kept token, whatever password it gets; it keeps the token and rewrites the same document |
| Login.FirstLoginScenario | src/main/java/net/dv8tion/jda/entities/impl/JDAImpl.java:114-145 | with no token file, a login issued T1 and gateway wss://gw/1 sends exactly the login and one gateway request, and writes {a@b.com: T1} with version 1 |
| Login.RevokedTokenScenario | src/main/java/net/dv8tion/jda/entities/impl/JDAImpl.java:95-132 | a stored T1 whose gateway request is refused is followed by a fresh login; the T2 it returns replaces T1 in the written document |
| JdaImpl.JDAImpl.constructor | src/main/java/net/dv8tion/jda/entities/impl/JDAImpl.java:46-60 | a new session has empty caches, no account, no token, no client and a zero counter |
| JdaImpl.JDAImpl.Login | src/main/java/net/dv8tion/jda/entities/impl/JDAImpl.java:76-146 | the step-by-step flow makes the outcome, requests, token, written document and client that LoginSpec gives; it changes only the token and the client |
| JdaImpl.JDAImpl.GetUsers | src/main/java/net/dv8tion/jda/entities/impl/JDAImpl.java:228-233 | returns one element per user-cache entry, listing exactly the cached users; reads and changes no cache |
| JdaImpl.JDAImpl.GetUserById | src/main/java/net/dv8tion/jda/entities/impl/JDAImpl.java:236-239 | the user cached under the id, or null exactly when the id is not cached |
| JdaImpl.JDAImpl.GetGuilds | src/main/java/net/dv8tion/jda/entities/impl/JDAImpl.java:247-252 | returns one element per guild-cache entry, listing exactly the cached guilds |
| JdaImpl.JDAImpl.GetGuildById | src/main/java/net/dv8tion/jda/entities/impl/JDAImpl.java:255-258 | the guild cached under the id, or null exactly when the id is not cached |
| JdaImpl.JDAImpl.GetTextChannels | src/main/java/net/dv8tion/jda/entities/impl/JDAImpl.java:266-271 | returns one element per text-channel-cache entry, listing exactly the cached text channels |
| JdaImpl.JDAImpl.GetTextChannelById | src/main/java/net/dv8tion/jda/entities/impl/JDAImpl.java:274-277 | the text channel cached under the id, or null exactly when the id is not cached |
| JdaImpl.JDAImpl.GetVoiceChannels | src/main/java/net/dv8tion/jda/entities/impl/JDAImpl.java:285-290 | returns one element per voice-channel-cache entry, listing exactly the cached voice channels |
| JdaImpl.JDAImpl.GetVoiceChannelById | src/main/java/net/dv8tion/jda/entities/impl/JDAImpl.java:293-296 | the voice channel cached under the id, or null exactly when the id is not cached |
| JdaImpl.JDAImpl.SetSelfInfo | src/main/java/net/dv8tion/jda/entities/impl/JDAImpl.java:312-320 | after the call the account read back is the value last set |
| JdaImpl.JDAImpl.SetResponseTotal | src/main/java/net/dv8tion/jda/entities/impl/JDAImpl.java:323-331 | after the call the counter read back is the value last set |
| Listing.Values | src/main/java/net/dv8tion/jda/entities/impl/JDAImpl.java:230-231 | the copied sequence lists the map's values in some order of its distinct keys: one element per entry, every value present, nothing else |
| Listing.ListingLength | src/main/java/net/dv8tion/jda/entities/impl/JDAImpl.java:231 | a listing over distinct keys has exactly as many elements as the map has entries |
| Listing.ListingMembers | src/main/java/net/dv8tion/jda/entities/impl/JDAImpl.java:231 | every value of the map is in a listing of it, and every element of the listing is a value of the map |
| MessageDelete.MessageDeleteEvent.GetPrivateChannel | src/main/java/net/dv8tion/jda/core/events/message/MessageDeleteEvent.java:39-42 | non-null exactly when the channel's type is PRIVATE, and then it is the event's own channel |
| MessageDelete.MessageDeleteEvent.GetGroup | src/main/java/net/dv8tion/jda/core/events/message/MessageDeleteEvent.java:44-47 | non-null exactly when the channel's type is GROUP, and then it is the event's own channel |
| MessageDelete.MessageDeleteEvent.GetTextChannel | src/main/java/net/dv8tion/jda/core/events/message/MessageDeleteEvent.java:49-52 | non-null exactly when the channel's type is TEXT, and then it is the event's own channel |
| MessageDelete.MessageDeleteEvent.GetGuild | src/main/java/net/dv8tion/jda/core/events/message/MessageDeleteEvent.java:54-57 | non-null exactly when the channel's type is TEXT, and then it is that text channel's guild and the text-channel view is non-null |
| MessageDelete.ExactlyOneChannelView | src/main/java/net/dv8tion/jda/core/events/message/MessageDeleteEvent.java:39-57 | exactly one of the private, group and text views is non-null, every non-null view is the event's own channel, and a guild is reported exactly when the text view is non-null |

## Left out

- HTTP calls through Unirest are not modelled. They are network I/O; their replies are the inputs in `Login.Network`.
- Unirest's global default headers are not modelled, apart from the token each gateway request carries. This includes `Content-Type` and `clearDefaultHeaders` before the login request.
- Reading and writing `tokens.json` and org.json parsing and pretty-printing are not modelled. They are file I/O and a foreign library. The file is the input `TokenFile`, and the write is the returned document.
- org.json's `getString` is taken to throw on a non-string value, as its current versions do. The library is not part of this model.
- Building the `WebSocketClient` is not modelled. It is an external transport; only the gateway it is given is recorded.
- `WebSocketClient` is assumed not to throw when given a null gateway. Its constructor is not part of this model.
- Console output and `printStackTrace` are left out, because they change no modelled state.
- `addEventListener`, `removeEventListener` and `getEventManager` are left out. They only delegate to `EventManager`, which is not part of this model.
- The raw getters `getUserMap`, `getGuildMap`, `getChannelMap`, `getVoiceChannelMap`, `getOffline_pms`, `getClient` and `getAuthToken` are the class's fields here. Only the values are modelled: the Java getters hand out the mutable map itself, and that aliasing is not captured.
- Entities are values, so reference identity is not modelled. An update seen through an entity reference held outside the cache is not captured.
- Concurrency is left out. The caches are plain unsynchronised maps, and nothing in the code coordinates threads.
- `offline_pms` has no get-or-create operation in this code, only the raw getter, so none is modelled.
- `JDABotImpl` is left out. It only adds the constant account type BOT and `asBot`, and forwards its constructor to a different `JDAImpl` from the one modelled.
- `GenericMessageEvent`, `ChannelType` and the channel classes are not part of this model. Message channels are assumed to be of exactly three kinds (text, private, group), each reporting its own type. The event keeps only the response number, the message id and the channel; the API handle is dropped.
- Runtime exceptions inside Unirest other than `UnirestException` are not distinguished. Replies are classified only as a usable value, a JSON reply without the expected field, or a failed call.
