/** The records the scraper builds, one datatype per JSON object shape,
    and the values a stored profile maps its keys to. A key that the
    source sets only conditionally is an `Option`; a JavaScript `null` is
    `None`. */
module Records {
  import opened Wrappers

  /** One Experience entry: every key is always present, '' when missing. */
  datatype Experience = Experience(title: string, company: string, date: string, location: string, description: string)

  /** One Education entry: `degree` and `date` exist only when their token does. */
  datatype Education = Education(school: string, degree: Option<string>, date: Option<string>, description: string)

  /** One publication from the profile page or from its details page. */
  datatype Publication = Publication(title: string, publisher: Option<string>, date: Option<string>)

  datatype Language = Language(language: string, proficiency: string)

  /** `re_post` exists only when the card has more than one text block. */
  datatype Post = Post(userCommentary: string, rePost: Option<string>)

  /** One comment of the profile owner with the context of its post. */
  datatype Comment = Comment(commentText: string, postText: Option<string>, timestamp: Option<string>, postAuthor: Option<string>)

  /** `liked_by` and `content` each exist only when found. */
  datatype Reaction = Reaction(likedBy: Option<string>, content: Option<string>)

  /** The value under one key of a profile record. */
  datatype Field =
    | Text(text: string)
    | Experiences(experiences: seq<Experience>)
    | Educations(educations: seq<Education>)
    | Languages(languages: seq<Language>)
    | Publications(publications: seq<Publication>)
    | Posts(posts: seq<Post>)
    | Comments(comments: seq<Comment>)
    | Reactions(reactions: seq<Reaction>)

  /** A profile record: the JSON object stored in one profile file. */
  type Profile = map<string, Field>
}
