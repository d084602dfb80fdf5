/**
 * Choosing the exchange backend: the enumeration of venues, the command-line
 * names that select them, and how each trader variant builds its client
 * options from its own section of the configuration.
 */
module Exchange {
  import opened Assets

  /** The supported venues; each carries the string the enumeration stores. */
  datatype ExchangeType = Coinbase | Gemini | Binance {
    function Value(): string
    {
      match this
      case Coinbase => "coinbase"
      case Gemini => "gemini"
      case Binance => "binance"
    }
  }

  /** The names the command line accepts for the exchange option, in order. */
  const ExchangeNames: seq<string> := ["coinbase", "gemini", "binance"]

  /** One venue's section of the configuration. */
  datatype Section = Section(apiKey: string, apiSecret: string, sandboxKey: string, sandboxSecret: string)

  /** The configuration: one section per venue. */
  datatype Config = Config(coinbase: Section, gemini: Section, binance: Section)

  /** The options a trader variant hands to its exchange client. */
  datatype ClientOptions = ClientOptions(venue: ExchangeType, apiKey: string, secret: string,
                                         enableRateLimit: bool, test: bool)

  /** The section a venue reads. */
  function SectionOf(config: Config, venue: ExchangeType): Section
  {
    match venue
    case Coinbase => config.coinbase
    case Gemini => config.gemini
    case Binance => config.binance
  }

  /** Sandbox credentials in test mode, production credentials otherwise; rate limiting on. */
  predicate UsesModeCredentials(o: ClientOptions, section: Section, testMode: bool)
  {
    && (testMode ==> o.apiKey == section.sandboxKey && o.secret == section.sandboxSecret)
    && (!testMode ==> o.apiKey == section.apiKey && o.secret == section.apiSecret)
    && o.enableRateLimit
    && o.test == testMode
  }

  /** The client options every variant builds, given the venue and its section. */
  function Connect(venue: ExchangeType, section: Section, testMode: bool): ClientOptions
  {
    ClientOptions(venue,
                  if testMode then section.sandboxKey else section.apiKey,
                  if testMode then section.sandboxSecret else section.apiSecret,
                  true, testMode)
  }

  /** The Coinbase variant reads the "coinbase" section. */
  function CoinbaseExchange(config: Config, testMode: bool): (o: ClientOptions)
    ensures o.venue == Coinbase
    ensures UsesModeCredentials(o, config.coinbase, testMode)
  {
    Connect(Coinbase, config.coinbase, testMode)
  }

  /** The Gemini variant reads the "gemini" section. */
  function GeminiExchange(config: Config, testMode: bool): (o: ClientOptions)
    ensures o.venue == Gemini
    ensures UsesModeCredentials(o, config.gemini, testMode)
  {
    Connect(Gemini, config.gemini, testMode)
  }

  /** The Binance variant reads the "binance" section. */
  function BinanceExchange(config: Config, testMode: bool): (o: ClientOptions)
    ensures o.venue == Binance
    ensures UsesModeCredentials(o, config.binance, testMode)
  {
    Connect(Binance, config.binance, testMode)
  }

  /** The trader class chosen for a venue builds that venue's client. */
  function InitializeExchange(venue: ExchangeType, config: Config, testMode: bool): (o: ClientOptions)
    ensures o.venue == venue
    ensures UsesModeCredentials(o, SectionOf(config, venue), testMode)
  {
    match venue
    case Coinbase => CoinbaseExchange(config, testMode)
    case Gemini => GeminiExchange(config, testMode)
    case Binance => BinanceExchange(config, testMode)
  }

  /** The command-line name to venue table; None for a name outside the accepted choices. */
  function ParseExchange(name: string): (r: Option<ExchangeType>)
    ensures r.Some? <==> name in ExchangeNames
    ensures r.Some? ==> r.value.Value() == name
  {
    if name == "coinbase" then Some(Coinbase)
    else if name == "gemini" then Some(Gemini)
    else if name == "binance" then Some(Binance)
    else None
  }

  /** Every venue's stored string parses back to that venue, so the two tables are one-to-one. */
  lemma ParseValue(venue: ExchangeType)
    ensures ParseExchange(venue.Value()) == Some(venue)
    ensures venue.Value() in ExchangeNames
  {
  }

  /** The options depend on the chosen venue's own section only. */
  lemma OwnSectionOnly(venue: ExchangeType, c1: Config, c2: Config, testMode: bool)
    requires SectionOf(c1, venue) == SectionOf(c2, venue)
    ensures InitializeExchange(venue, c1, testMode) == InitializeExchange(venue, c2, testMode)
  {
  }

  /** When the sandbox and production keys differ, the sandbox key is used exactly in test mode. */
  lemma SandboxIffTestMode(venue: ExchangeType, config: Config, testMode: bool)
    requires SectionOf(config, venue).sandboxKey != SectionOf(config, venue).apiKey
    requires SectionOf(config, venue).sandboxSecret != SectionOf(config, venue).apiSecret
    ensures var o := InitializeExchange(venue, config, testMode);
            (o.apiKey == SectionOf(config, venue).sandboxKey <==> testMode) &&
            (o.secret == SectionOf(config, venue).sandboxSecret <==> testMode)
  {
  }
}
