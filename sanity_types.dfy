/** The documents the content browser reads from the content store, and the
    toast notifications its components raise. */
module SanityTypes {
  import opened Wrappers

  /** A `post` document as the page uses it. `_createdAt` is taken as the
      millisecond timestamp its date parses to. */
  datatype ContentItem = ContentItem(
    id: string,
    createdAt: int,
    title: string,
    excerpt: Option<string>,
    category: Option<string>)

  /** A `product` document, reduced to the fields its lookup is keyed by. */
  datatype Product = Product(id: string, name: string, slug: string)

  /** A toast: its title, its description and whether it uses the destructive variant. */
  datatype Toast = Toast(title: string, description: string, destructive: bool)
}
