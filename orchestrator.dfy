/** Putting a scrape together (linkedin_scraper.py): the profile record
    built by extract_profile_data, the stages of LinkedInScraper.run that
    add to the scraped data, and run_and_save, which merges the result into
    the profile's file. Every browser step is replaced by what it yields. */
module Orchestrator {
  import opened Strings
  import opened Wrappers
  import opened Sequences
  import opened Lines
  import opened Records
  import opened Header
  import opened ExperienceSection
  import opened EducationSection
  import opened PublicationsSection
  import opened LanguagesSection
  import opened Identity

  /** What the profile page yields: the `h1` and headline texts (`None` when
      the element never appears, which raises), the optional location,
      About section and Services texts, and the list items of the four
      sections. */
  datatype ProfilePage = ProfilePage(
    fullName: Option<string>,
    headline: Option<string>,
    location: Option<string>,
    aboutSection: Option<string>,
    services: Option<string>,
    experienceItems: seq<ExperienceItem>,
    publicationItems: seq<string>,
    languageItems: seq<string>,
    educationItems: seq<seq<string>>)

  /** The keys of a profile record. */
  const ProfileKeys: set<string> :=
    {"first_name", "last_name", "headline", "location", "about", "services",
     "experience", "publications", "languages", "education"}

  /** The text of an optional element, or "Not specified" when it is missing. */
  function OrNotSpecified(o: Option<string>): string {
    if o.Some? then o.value else "Not specified"
  }

  /** The record the profile dictionary ends up as, one key per field. */
  function ProfileRecord(firstName: string, lastName: string, headline: string, location: string,
                         about: string, services: string, experience: seq<Experience>,
                         publications: seq<Publication>, languages: seq<Language>,
                         education: seq<Education>): (p: Profile)
    ensures p.Keys == ProfileKeys
    ensures p["first_name"] == Text(firstName) && p["last_name"] == Text(lastName)
    ensures p["headline"] == Text(headline) && p["location"] == Text(location)
    ensures p["about"] == Text(about) && p["services"] == Text(services)
    ensures p["experience"] == Experiences(experience) && p["publications"] == Publications(publications)
    ensures p["languages"] == Languages(languages) && p["education"] == Educations(education)
  {
    map["first_name" := Text(firstName), "last_name" := Text(lastName), "headline" := Text(headline),
        "location" := Text(location), "about" := Text(about), "services" := Text(services),
        "experience" := Experiences(experience), "publications" := Publications(publications),
        "languages" := Languages(languages), "education" := Educations(education)]
  }

  /** extract_profile_data: `None` when the name or the headline cannot be
      read (the exception leaves the method); otherwise a record with exactly
      the ten profile keys. The name is split at its first space, a missing
      location or Services section reads "Not specified", and the section
      lists are those of the section extractors. */
  method ExtractProfileData(page: ProfilePage) returns (profile: Option<Profile>)
    ensures profile.None? <==> page.fullName.None? || page.headline.None?
    ensures profile.Some? ==>
      var p := profile.value;
      var name := SplitName(page.fullName.value);
      p.Keys == ProfileKeys &&
      p["first_name"] == Text(name.first) && p["last_name"] == Text(name.last) &&
      p["headline"] == Text(page.headline.value) &&
      p["location"] == Text(OrNotSpecified(page.location)) &&
      p["services"] == Text(OrNotSpecified(page.services)) &&
      p["about"] == Text(if page.aboutSection.None? then ""
                         else Join(" ", AboutLines(NonBlankLines(page.aboutSection.value)))) &&
      p["experience"] == Experiences(Collect(page.experienceItems, ExperienceFromItem)) &&
      p["publications"] == Publications(Collect(page.publicationItems, ProfilePublication)) &&
      p["languages"] == Languages(Collect(page.languageItems, LanguageFromText)) &&
      p["education"] == Educations(Collect(page.educationItems, EducationFromItem))
  {
    if page.fullName.None? || page.headline.None? {
      return None;
    }
    var name := SplitName(page.fullName.value);
    var about := ExtractAbout(page.aboutSection);
    var experience := ExtractExperience(page.experienceItems);
    var publications := ExtractPublications(page.publicationItems);
    var languages := ExtractLanguages(page.languageItems);
    var education := ExtractEducation(page.educationItems);
    var p := ProfileRecord(name.first, name.last, page.headline.value, OrNotSpecified(page.location),
                           about, OrNotSpecified(page.services), experience, publications, languages, education);
    profile := Some(p);
  }

  /** The optional stages of a run. */
  datatype Request = Request(scrapePosts: bool, scrapeComments: bool, scrapeReactions: bool)

  /** `existing.update(scraped)`: every scraped key takes its scraped value,
      every other key keeps its stored one. */
  function Merge(existing: Profile, scraped: Profile): (merged: Profile)
    ensures merged.Keys == existing.Keys + scraped.Keys
    ensures forall k :: k in scraped ==> merged[k] == scraped[k]
    ensures forall k :: k in existing && k !in scraped ==> merged[k] == existing[k]
  {
    existing + scraped
  }

  /** Merging the same data twice changes nothing the first merge did not. */
  lemma MergeIdempotent(existing: Profile, scraped: Profile)
    ensures Merge(Merge(existing, scraped), scraped) == Merge(existing, scraped)
  {
  }

  /** How `key` of the result relates to the profile record: it holds the
      added value when a stage added one, and is otherwise as the profile
      record has it. */
  predicate KeyFrom(scraped: Profile, base: Profile, key: string, added: Option<Field>) {
    if added.Some? then key in scraped && scraped[key] == added.value
    else (key in scraped <==> key in base) && (key in base ==> scraped[key] == base[key])
  }

  /** The value a stage adds: its list, when the stage ran, did not raise and
      found something. */
  function StageValue<T>(runs: bool, result: Option<seq<T>>, wrap: seq<T> -> Field): Option<Field> {
    if runs && result.Some? && result.value != [] then Some(wrap(result.value)) else None
  }

  /** The stages before the posts, comments and reactions stages did not
      raise: the profile stage produced a record and every earlier requested
      activity page could be opened. */
  predicate PostsStageRuns(req: Request, profile: Option<Profile>) {
    profile.Some? && req.scrapePosts
  }

  predicate CommentsStageRuns(req: Request, profile: Option<Profile>, posts: Option<seq<Post>>) {
    profile.Some? && (req.scrapePosts ==> posts.Some?) && req.scrapeComments
  }

  predicate ReactionsStageRuns(req: Request, profile: Option<Profile>, posts: Option<seq<Post>>,
                               comments: Option<seq<Comment>>) {
    profile.Some? && (req.scrapePosts ==> posts.Some?) && (req.scrapeComments ==> comments.Some?)
    && req.scrapeReactions
  }

  const ActivityKeys: set<string> := {"publications", "posts", "comments", "reactions"}

  /** LinkedInScraper.run after the browser is up. `profile` is what the
      profile stage yields (`None`: it raised); the full publications list
      is what its extractor returns (it never raises); for each requested
      activity page, `None` means opening the page raised. One try block
      covers all stages, so a stage that raises ends the run with what has
      been collected so far. */
  method Run(req: Request, profile: Option<Profile>, fullPublications: seq<Publication>,
             posts: Option<seq<Post>>, comments: Option<seq<Comment>>, reactions: Option<seq<Reaction>>)
    returns (scraped: Profile)
    ensures profile.None? ==> scraped == map[]
    ensures profile.Some? ==>
      forall k :: k !in ActivityKeys ==>
        (k in scraped <==> k in profile.value) && (k in scraped ==> scraped[k] == profile.value[k])
    ensures profile.Some? ==>
      KeyFrom(scraped, profile.value, "publications",
              if fullPublications != [] then Some(Publications(fullPublications)) else None)
    ensures profile.Some? ==>
      KeyFrom(scraped, profile.value, "posts",
              StageValue(PostsStageRuns(req, profile), posts, ps => Posts(ps)))
    ensures profile.Some? ==>
      KeyFrom(scraped, profile.value, "comments",
              StageValue(CommentsStageRuns(req, profile, posts), comments, cs => Comments(cs)))
    ensures profile.Some? ==>
      KeyFrom(scraped, profile.value, "reactions",
              StageValue(ReactionsStageRuns(req, profile, posts, comments), reactions, rs => Reactions(rs)))
  {
    scraped := map[];
    if profile.None? {
      return;
    }
    scraped := scraped + profile.value;
    if fullPublications != [] {
      scraped := scraped["publications" := Publications(fullPublications)];
    }
    if req.scrapePosts {
      if posts.None? {
        return;
      }
      if posts.value != [] {
        scraped := scraped["posts" := Posts(posts.value)];
      }
    }
    if req.scrapeComments {
      if comments.None? {
        return;
      }
      if comments.value != [] {
        scraped := scraped["comments" := Comments(comments.value)];
      }
    }
    if req.scrapeReactions {
      if reactions.None? {
        return;
      }
      if reactions.value != [] {
        scraped := scraped["reactions" := Reactions(reactions.value)];
      }
    }
  }

  /** A profile file as found on disk: a JSON object, or text that is not one. */
  datatype StoredFile = Parsed(data: Profile) | Corrupt

  /** The files of the working directory by name. */
  type Files = map<string, StoredFile>

  /** run_and_save after the scrape: the file `linkedin_profile_<id>.json`
      is read first (a missing one counts as empty, an unreadable one raises
      before anything is scraped or written); the scraped data, when there is
      any, is merged over its contents and written back. */
  method RunAndSave(url: string, files: Files, scraped: Profile) returns (result: Result<Files, string>)
    ensures var name := ProfileFileName(ProfileId(url));
      result.Failure? <==> name in files && files[name].Corrupt?
    ensures var name := ProfileFileName(ProfileId(url));
      result.Success? && scraped == map[] ==> result.value == files
    ensures var name := ProfileFileName(ProfileId(url));
      result.Success? && scraped != map[] ==>
        result.value.Keys == files.Keys + {name} &&
        result.value[name] == Parsed(Merge(if name in files then files[name].data else map[], scraped)) &&
        forall other :: other in files && other != name ==> result.value[other] == files[other]
  {
    var profileName := ProfileId(url);
    var fileName := ProfileFileName(profileName);
    var existing: Profile := map[];
    if fileName in files {
      if files[fileName].Corrupt? {
        return Failure("the profile file is not valid JSON");
      }
      existing := files[fileName].data;
    }
    if scraped != map[] {
      existing := Merge(existing, scraped);
      return Success(files[fileName := Parsed(existing)]);
    }
    return Success(files);
  }
}
