/** The concrete cases of tests/list_helper.test.js, stated over the model. */
module ListHelperTests {

  import opened ListHelper

  /** The single record used by the one-element cases. */
  function ReactPatterns(): Blog
  {
    Blog("React patterns", "Michael Chan", "https://reactpatterns.com/", 7)
  }

  /** The six-record fixture list (likes 7, 5, 12, 10, 0, 2). */
  function TestBlogs(): seq<Blog>
  {
    [ ReactPatterns(),
      Blog("Go To Statement Considered Harmful", "Edsger W. Dijkstra",
           "http://www.u.arizona.edu/~rubinson/copyright_violations/Go_To_Considered_Harmful.html", 5),
      Blog("Canonical string reduction", "Edsger W. Dijkstra",
           "http://www.cs.utexas.edu/~EWD/transcriptions/EWD08xx/EWD808.html", 12),
      Blog("First class tests", "Robert C. Martin",
           "http://blog.cleancoder.com/uncle-bob/2017/05/05/TestDefinitions.htmll", 10),
      Blog("TDD harms architecture", "Robert C. Martin",
           "http://blog.cleancoder.com/uncle-bob/2017/03/03/TDD-Harms-Architecture.html", 0),
      Blog("Type wars", "Robert C. Martin",
           "http://blog.cleancoder.com/uncle-bob/2016/05/01/TypeWars.html", 2) ]
  }

  /** `dummy([])` is 1. */
  lemma DummyOfEmpty()
    ensures Dummy([]) == 1
  {
  }

  /** Total likes of the empty list, of one record and of the fixture. */
  lemma TotalLikesExamples()
    ensures TotalLikes([]) == 0
    ensures TotalLikes([ReactPatterns()]) == 7
    ensures TotalLikes(TestBlogs()) == 36
  {
  }

  /** Favourite of the empty list, of one record and of the fixture. */
  lemma FavoriteBlogExamples()
    ensures FavoriteBlog([]) == NoFavorite
    ensures FavoriteBlog([ReactPatterns()]) == Favorite("React patterns", "Michael Chan", 7)
    ensures FavoriteBlog(TestBlogs()) == Favorite("Canonical string reduction", "Edsger W. Dijkstra", 12)
  {
  }
}
