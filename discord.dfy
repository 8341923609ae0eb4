/**
 * The pieces of Discord messages the bot builds (serenity's `CreateEmbed`,
 * `CreateEmbedAuthor`, `CreateEmbedFooter`, `CreateButton`), as plain records.
 */
module Discord {
  import opened Wrappers
  import opened Text

  /** A custom guild emoji `<:name:id>`; the id is kept as the decimal text of its snowflake. */
  datatype Emoji = Emoji(name: string, id: string)

  /** How an emoji is written inside message text. */
  function EmojiText(e: Emoji): string {
    "<:" + e.name + ":" + e.id + ">"
  }

  /** Which icon an embed author shows: the image of an emoji, or an image URL. */
  datatype Icon = NoIcon | EmojiImage(emoji: Emoji) | ImageUrl(url: string)

  datatype EmbedAuthor = EmbedAuthor(name: string, icon: Icon)

  datatype EmbedFooter = EmbedFooter(text: string, iconUrl: string)

  datatype EmbedField = EmbedField(name: string, value: string, inline: bool)

  datatype Embed = Embed(
    title: Option<string>,
    description: Option<string>,
    author: Option<EmbedAuthor>,
    color: Option<nat>,
    url: Option<string>,
    image: Option<string>,
    thumbnail: Option<string>,
    footer: Option<EmbedFooter>,
    fields: seq<EmbedField>)

  const EmptyEmbed := Embed(None, None, None, None, None, None, None, None, [])

  /** A message button: its custom id, its label (`caption`) and its emoji. */
  datatype Button = Button(customId: string, caption: string, emoji: Emoji)

  /** A cached Discord user: the name shown and the avatar URL. */
  datatype User = User(displayName: string, face: string)
}
