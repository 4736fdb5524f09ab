/** The shared story/page data model of types.ts. */
module StoryTypes {
  import opened Wrappers

  /** `aspect_ratio` is typed as the single literal "4:3": a one-valued enum. */
  datatype AspectRatio = FourByThree

  /** `seed: number | null` */
  datatype ImageMetadata = ImageMetadata(style: string, aspect_ratio: AspectRatio, seed: Option<int>)

  /** `image_url?: string | null`: the property may be missing, null or a string. */
  datatype ImageField = Absent | Null | Url(url: string)

  datatype Page = Page(
    page_number: int,
    text: string,
    tts_text: string,
    image_prompt: string,
    image_metadata: ImageMetadata,
    audio_url: Option<string>,   // `string | null`
    image_url: ImageField)

  datatype Meta = Meta(page_count: int, estimated_duration_seconds: int)

  datatype Story = Story(title: string, subtitle: string, pages: seq<Page>, meta: Meta)

  /** JavaScript truthiness of a `string | null` value: null and "" are falsy. */
  predicate Truthy(s: Option<string>) {
    s.Some? && s.value != ""
  }

  /** Truthiness of `page.image_url`: a missing property, null and "" all read as
      "no image". */
  predicate HasImage(p: Page) {
    p.image_url.Url? && p.image_url.url != ""
  }

  /** Absence and null of `image_url` are indistinguishable to every reader. */
  lemma AbsentAndNullAgree(p: Page)
    requires p.image_url == Absent
    ensures !HasImage(p) && !HasImage(p.(image_url := Null))
  {
  }
}
