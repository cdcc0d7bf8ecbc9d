/** The numeric and key constants of the bot's configuration module. Values read
    from the environment (token, target chat, channel switch) are not modelled here;
    the handlers that need them take them as parameters. */
module Config {

  /** Language used when a session has none or names an unsupported one. */
  const DEFAULT_LANGUAGE: string := "uz"

  /** Codes of the languages that have a string table. */
  const SUPPORTED_LANGUAGES: set<string> := {"en", "ru", "uz"}

  /** Largest number of photos and videos one ad may carry. */
  const MAX_MEDIA_ITEMS: nat := 10

  /** Largest description, in characters, after trimming. */
  const MAX_DESCRIPTION_LENGTH: nat := 1000

  /** The four category keys a user can pick. */
  const CATEGORY_KEYS: set<string> := {"cars", "houses", "animals", "other"}
}
