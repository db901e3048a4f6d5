/** The bot identity of src/bot.rs, projected from a resolved configuration. */
module Bots {
  import opened U64
  import opened Configuration

  /** `Bot<'a>`: the borrowed string fields are modelled as copies of the configuration's. */
  datatype Bot = Bot(name: string, id: u64, token: string, secret: string)

  /** `Bot::from_config`: the name, and the API id, token and secret. */
  function FromConfig(c: Config): (b: Bot)
    ensures b.name == c.name
    ensures b.id == c.api.id
    ensures b.token == c.api.token
    ensures b.secret == c.api.secret
  {
    Bot(c.name, c.api.id, c.api.token, c.api.secret)
  }

  /** The bot is determined by, and determines, the configuration's name and API section. */
  lemma FromConfigDependsOnNameAndApi(c1: Config, c2: Config)
    ensures FromConfig(c1) == FromConfig(c2) <==> c1.name == c2.name && c1.api == c2.api
  {
  }

  /** Changing the owner, the file paths or either policy leaves the bot unchanged. */
  lemma FromConfigIgnoresOtherSections(c: Config, ownerId: u64, file: FileConfig, policy: PostPolicy, media: MediaPolicy)
    ensures FromConfig(c.(ownerId := ownerId, file := file, policy := policy, media := media)) == FromConfig(c)
  {
  }

  /** The bot of a first run: the template's name, API id, `BOT_TOKEN` and `API_HASH`. */
  lemma DefaultBot()
    ensures FromConfig(DefaultConfig) == Bot("TG8CHAN", 0, "wxyz", "abcd")
  {
  }
}
