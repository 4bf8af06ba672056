/**
 * src/services/movie.js: the OMDb lookup by title and optional year, and the
 * Discord embed built from the answer. The HTTP call is represented by the
 * answer it gives; a movie's string fields are `None` where OMDb left them
 * out.
 */
module Movie {
  import opened Wrappers
  import opened JsText
  import opened Errors

  const NotFoundText := "Movie not found. " + "Please check the title and try again."
  const ImdbYellow := 0xF5C518
  const NotAvailable := "N/A"

  // ---------------------------------------------------------------- getMovie

  /** The query parameters besides the API key: `t`, and `y` when a year was given. */
  datatype Params = Params(t: string, y: Option<int>)

  datatype Rating = Rating(source: Option<string>, value: Option<string>)

  /** The OMDb response body; `response` is its `Response` flag. */
  datatype MovieData = MovieData(response: Option<string>, title: Option<string>, year: Option<string>,
                                 imdbId: Option<string>, poster: Option<string>, plot: Option<string>,
                                 director: Option<string>, actors: Option<string>, genre: Option<string>,
                                 runtime: Option<string>, released: Option<string>,
                                 ratings: Option<seq<Rating>>)

  /** `if (year)`: an absent year and the year 0 are falsy. */
  function RequestParams(title: string, year: Option<int>): (p: Params)
    ensures p.t == title
    ensures p.y.Some? <==> year.Some? && year.value != 0
    ensures p.y.Some? ==> p.y == year
  {
    Params(title, if year.Some? && year.value != 0 then year else None)
  }

  datatype Lookup = Lookup(params: Params, result: Result<Option<MovieData>, Error>)

  /** `getMovie(title, year)`: null when OMDb answers `Response: 'False'`. */
  function GetMovie(title: string, year: Option<int>, api: Result<MovieData, Error>): (r: Lookup)
    ensures r.params == RequestParams(title, year)
    ensures r.result.Err? <==> api.Err?
    ensures api.Err? ==> Name(r.result.error) == "APIError"
    ensures api.Ok? ==> (r.result == Ok(None) <==> api.value.response == Some("False"))
    ensures r.result.Ok? && r.result.value.Some? ==> api.Ok? && r.result.value.value == api.value
  {
    var params := RequestParams(title, year);
    match api
    case Err(e) => Lookup(params, Err(NewAPIError("Failed to fetch movie data", Some(StatusOr500(e)), Some("OMDb API"))))
    case Ok(data) => Lookup(params, Ok(if data.response == Some("False") then None else Some(data)))
  }

  // ---------------------------------------------------------------- formatMovieMessage

  /** An embed field; `inline` is `None` where the field sets no flag. */
  datatype Field = Field(name: string, value: string, inline: Option<bool>)

  datatype Embed = Embed(title: string, url: string, color: int, thumbnail: Option<string>,
                         fields: seq<Field>, footer: string)

  /** What `formatMovieMessage` returns: a plain string or `{ embeds: [embed] }`. */
  datatype MovieMessage = Text(content: string) | Embeds(embeds: seq<Embed>)

  function RatingLine(r: Rating): string
  {
    Render(r.source) + ": " + Render(r.value)
  }

  function RatingLines(rs: seq<Rating>): (lines: seq<string>)
    ensures |lines| == |rs|
    ensures forall i :: 0 <= i < |rs| ==> lines[i] == RatingLine(rs[i])
  {
    if |rs| == 0 then [] else [RatingLine(rs[0])] + RatingLines(rs[1..])
  }

  /** `movie.Ratings?.map(r => ...).join('\n') || 'N/A'` */
  function RatingsText(ratings: Option<seq<Rating>>): string
  {
    var joined := if ratings.Some? then Join(RatingLines(ratings.value), "\n") else "";
    if joined != "" then joined else NotAvailable
  }

  /** `movie.Poster !== 'N/A' ? movie.Poster : undefined` */
  function Thumbnail(poster: Option<string>): (t: Option<string>)
    ensures t.Some? <==> poster.Some? && poster.value != NotAvailable
    ensures t.Some? ==> t == poster
  {
    if poster == Some(NotAvailable) then None else poster
  }

  function MovieEmbed(m: MovieData): (e: Embed)
    ensures |e.fields| == 6 && e.color == ImdbYellow && e.thumbnail == Thumbnail(m.poster)
    ensures e.fields[0].inline.None? && e.fields[5].inline == Some(false)
    ensures forall i :: 1 <= i < 5 ==> e.fields[i].inline == Some(true)
    ensures e.fields[5].value == RatingsText(m.ratings)
    ensures Truthy(m.plot) ==> e.fields[0].value == m.plot.value
    ensures !Truthy(m.plot) ==> e.fields[0].value == NotAvailable
  {
    Embed(Render(m.title) + " (" + Render(m.year) + ")",
          "https://www.imdb.com/title/" + Render(m.imdbId) + "/",
          ImdbYellow,
          Thumbnail(m.poster),
          [Field("Plot", Or(m.plot, NotAvailable), None),
           Field("Director", Or(m.director, NotAvailable), Some(true)),
           Field("Cast", Or(m.actors, NotAvailable), Some(true)),
           Field("Genre", Or(m.genre, NotAvailable), Some(true)),
           Field("Runtime", Or(m.runtime, NotAvailable), Some(true)),
           Field("Ratings", RatingsText(m.ratings), Some(false))],
          "Released: " + Render(m.released))
  }

  /** `formatMovieMessage(movie)`; a null movie is `None`. */
  function FormatMovieMessage(movie: Option<MovieData>): (r: MovieMessage)
    ensures r.Text? <==> movie.None?
    ensures r.Text? ==> r.content == NotFoundText
    ensures r.Embeds? ==> r.embeds == [MovieEmbed(movie.value)]
  {
    if movie.None? then Text(NotFoundText) else Embeds([MovieEmbed(movie.value)])
  }

  // ---------------------------------------------------------------- properties

  /** The request carries the title as `t`, and `y` exactly when the year is truthy. */
  lemma YearOnlyWhenTruthy(title: string, year: Option<int>, api: Result<MovieData, Error>)
    ensures GetMovie(title, year, api).params.t == title
    ensures GetMovie(title, year, api).params.y.Some? <==> year.Some? && year.value != 0
    ensures GetMovie(title, None, api).params == Params(title, None)
  {
  }

  /** A found movie is the response body itself; `Response: 'False'` gives null. */
  lemma FoundOrNull(title: string, year: Option<int>, data: MovieData)
    ensures data.response == Some("False") ==> GetMovie(title, year, Ok(data)).result == Ok(None)
    ensures data.response != Some("False") ==> GetMovie(title, year, Ok(data)).result == Ok(Some(data))
  {
  }

  /** Any request failure is an 'OMDb API' APIError with the HTTP status, or 500. */
  lemma FailureIsAPIError(title: string, year: Option<int>, e: Error)
    ensures var r := GetMovie(title, year, Err(e)).result;
            r.Err? && Name(r.error) == "APIError" && r.error.source == "OMDb API" &&
            r.error.message == "Failed to fetch movie data" &&
            (StatusCode(r.error) == Some(500) || (e.External? && StatusCode(r.error) == e.status))
  {
  }

  /** A null movie gives the not-found text, which mentions 'Movie not found'. */
  lemma NullIsNotFound()
    ensures FormatMovieMessage(None) == Text(NotFoundText)
    ensures StartsWith(NotFoundText, "Movie not found")
  {
  }

  /**
   * A movie gives one embed titled 'Title (Year)', linked to its IMDb page,
   * with six fields in the fixed order, each missing value shown as 'N/A'.
   */
  lemma {:induction false} EmbedShape(m: MovieData)
    ensures FormatMovieMessage(Some(m)).Embeds? && |FormatMovieMessage(Some(m)).embeds| == 1
    ensures var e := FormatMovieMessage(Some(m)).embeds[0];
            e.title == Render(m.title) + " (" + Render(m.year) + ")" &&
            e.url == "https://www.imdb.com/title/" + Render(m.imdbId) + "/" &&
            e.color == 0xF5C518 &&
            |e.fields| == 6 &&
            (forall i :: 0 <= i < 6 ==> e.fields[i].name == ["Plot", "Director", "Cast", "Genre", "Runtime", "Ratings"][i]) &&
            (forall i :: 1 <= i < 5 ==> e.fields[i].inline == Some(true)) &&
            e.fields[5].inline == Some(false)
    ensures var e := FormatMovieMessage(Some(m)).embeds[0];
            (Truthy(m.plot) ==> e.fields[0].value == m.plot.value) && (!Truthy(m.plot) ==> e.fields[0].value == "N/A") &&
            (Truthy(m.director) ==> e.fields[1].value == m.director.value) && (!Truthy(m.director) ==> e.fields[1].value == "N/A")
    ensures var e := FormatMovieMessage(Some(m)).embeds[0];
            e.fields[2].value == Or(m.actors, "N/A") && e.fields[3].value == Or(m.genre, "N/A") &&
            e.fields[4].value == Or(m.runtime, "N/A")
    ensures FormatMovieMessage(Some(m)).embeds[0].footer == "Released: " + Render(m.released)
  {
  }

  /** The thumbnail is the poster unless OMDb gave 'N/A' (or nothing). */
  lemma ThumbnailUnlessNA(m: MovieData)
    ensures FormatMovieMessage(Some(m)).embeds[0].thumbnail.Some? <==> m.poster.Some? && m.poster.value != "N/A"
  {
  }

  /** Every rating line contains ': ', so a list of ratings never joins to the empty text. */
  lemma {:induction false} JoinedRatingsNonEmpty(rs: seq<Rating>)
    requires |rs| > 0
    ensures Join(RatingLines(rs), "\n") != ""
  {
    var lines := RatingLines(rs);
    if |lines| == 1 {
      assert Join(lines, "\n") == RatingLine(rs[0]);
    } else {
      assert Join(lines, "\n") == lines[0] + "\n" + Join(lines[1..], "\n");
    }
    assert |RatingLine(rs[0])| >= 2;
  }

  /** The ratings field is 'N/A' exactly when there are no ratings; otherwise its lines are the ratings, in order. */
  lemma {:induction false} RatingsField(ratings: Option<seq<Rating>>)
    ensures RatingsText(ratings) == "N/A" <==> ratings.None? || |ratings.value| == 0
    ensures ratings.Some? && |ratings.value| > 0 &&
            (forall i :: 0 <= i < |ratings.value| ==> '\n' !in RatingLine(ratings.value[i])) ==>
              Split(RatingsText(ratings), '\n') == RatingLines(ratings.value)
  {
    if ratings.Some? && |ratings.value| > 0 {
      var rs := ratings.value;
      var lines := RatingLines(rs);
      JoinedRatingsNonEmpty(rs);
      assert RatingsText(ratings) == Join(lines, "\n");
      if forall i :: 0 <= i < |rs| ==> '\n' !in RatingLine(rs[i]) {
        SplitJoin(lines, '\n');
      }
    }
  }

  /** The case of the service's own test: 'Inception (2010)' with six fields. */
  lemma InceptionExample()
    ensures var m := MovieData(Some("True"), Some("Inception"), Some("2010"), Some("tt1375666"),
                               Some("http://example.com/poster.jpg"), Some("Dream within a dream"),
                               Some("Christopher Nolan"), Some("Leonardo DiCaprio"), Some("Sci-Fi"), Some("148 min"),
                               Some("16 Jul 2010"), Some([Rating(Some("Internet Movie Database"), Some("8.8/10"))]));
            FormatMovieMessage(Some(m)).embeds[0].title == "Inception (2010)" &&
            |FormatMovieMessage(Some(m)).embeds[0].fields| == 6
  {
  }
}
