/** The Discord webhook payload both transforms build: an embed with named fields, a footer and a timestamp. */
module Discord {
  import opened Wrappers

  /** The footer icon both transforms use (an opaque constant). */
  const UnifiIconUrl := "https://pbs.twimg.com/profile_images/1610157462321254402/tMCv8T-y_400x400.png"

  datatype Field = Field(name: string, value: string, inline: bool)

  datatype Footer = Footer(text: string, iconUrl: string)

  datatype Embed = Embed(
    title: string,
    description: Option<string>,
    color: int,
    fields: seq<Field>,
    footer: Footer,
    timestamp: string)

  /** `{ embeds: [...] }`: the body posted to the webhook. */
  datatype Message = Message(embeds: seq<Embed>)
}
