/**
 * The gateway's upstream resolver and cache-key construction
 * (gateway-fiber/main.go, the pure part of proxyHandler).
 */
module Routing {
  import opened Wrappers
  import opened GoStrings

  /** The three backends a request can be forwarded to. */
  datatype Service = CourseService | UserService | EnrollmentService

  /** The backend base URLs, read from the environment or defaulted. */
  datatype Config = Config(courseURL: string, userURL: string, enrollmentURL: string)

  const DEFAULT_COURSE_URL: string := "http://course-service:8081"
  const DEFAULT_USER_URL: string := "http://user-service:8082"
  const DEFAULT_ENROLLMENT_URL: string := "http://enrollment-service:8083"

  /** An environment variable's value, or the default when it is unset or empty. */
  function OrDefault(env: string, default: string): (r: string)
    ensures r == env || r == default
    ensures default != "" ==> r != ""
  {
    if env == "" then default else env
  }

  /** The configuration the gateway builds from COURSE_SERVICE_URL, USER_SERVICE_URL and ENROLLMENT_SERVICE_URL. */
  function ConfigFromEnv(courseEnv: string, userEnv: string, enrollmentEnv: string): (cfg: Config)
    ensures cfg.courseURL != "" && cfg.userURL != "" && cfg.enrollmentURL != ""
    ensures cfg.courseURL in {courseEnv, DEFAULT_COURSE_URL}
    ensures cfg.userURL in {userEnv, DEFAULT_USER_URL}
    ensures cfg.enrollmentURL in {enrollmentEnv, DEFAULT_ENROLLMENT_URL}
  {
    Config(OrDefault(courseEnv, DEFAULT_COURSE_URL),
           OrDefault(userEnv, DEFAULT_USER_URL),
           OrDefault(enrollmentEnv, DEFAULT_ENROLLMENT_URL))
  }

  /** With no overrides set, every backend URL is its well-known default, and none is empty. */
  lemma EmptyEnvironmentGivesDefaults()
    ensures ConfigFromEnv("", "", "") == Config(DEFAULT_COURSE_URL, DEFAULT_USER_URL, DEFAULT_ENROLLMENT_URL)
    ensures forall c, u, e :: ConfigFromEnv(c, u, e).courseURL != ""
    ensures forall c, u, e :: ConfigFromEnv(c, u, e).userURL != ""
    ensures forall c, u, e :: ConfigFromEnv(c, u, e).enrollmentURL != ""
  {
  }

  /** A non-empty override is used verbatim, each variable for its own backend only. */
  lemma OverridesTakePrecedence(c: string, u: string, e: string)
    ensures c != "" ==> ConfigFromEnv(c, u, e).courseURL == c
    ensures u != "" ==> ConfigFromEnv(c, u, e).userURL == u
    ensures e != "" ==> ConfigFromEnv(c, u, e).enrollmentURL == e
    ensures ConfigFromEnv(c, u, e).courseURL == ConfigFromEnv(c, "", "").courseURL
    ensures ConfigFromEnv(c, u, e).userURL == ConfigFromEnv("", u, "").userURL
    ensures ConfigFromEnv(c, u, e).enrollmentURL == ConfigFromEnv("", "", e).enrollmentURL
  {
  }

  predicate IsCoursePath(path: string)
  {
    HasPrefix(path, "/courses") || HasPrefix(path, "/series")
  }

  /** The first-match-wins routing chain; None is the 404 "Service not found" outcome. */
  function Resolve(path: string): Option<Service>
  {
    if IsCoursePath(path) then Some(CourseService)
    else if HasPrefix(path, "/users") && !Contains(path, "/enrollments") then Some(UserService)
    else if Contains(path, "/enrollments") then Some(EnrollmentService)
    else None
  }

  function BaseURL(cfg: Config, service: Service): string
  {
    match service
    case CourseService => cfg.courseURL
    case UserService => cfg.userURL
    case EnrollmentService => cfg.enrollmentURL
  }

  /** fmt.Sprintf("%s:%s", method, path). */
  function CacheKey(verb: string, path: string): (key: string)
    ensures |key| == |verb| + 1 + |path|
    ensures key[..|verb|] == verb && key[|verb|] == ':' && key[|verb| + 1..] == path
  {
    verb + ":" + path
  }

  /** A "/users" path never starts like a course path. */
  lemma UsersPathIsNotCoursePath(path: string)
    requires HasPrefix(path, "/users")
    ensures !IsCoursePath(path)
  {
    assert path[1] == 'u';
    assert "/courses"[1] == 'c' && "/series"[1] == 's';
  }

  /** Course and series paths always reach the course backend. */
  lemma ResolveCourse(path: string)
    ensures Resolve(path) == Some(CourseService) <==> IsCoursePath(path)
  {
  }

  /** The user backend gets exactly the "/users" paths that do not mention "/enrollments". */
  lemma ResolveUser(path: string)
    ensures Resolve(path) == Some(UserService) <==> HasPrefix(path, "/users") && !Contains(path, "/enrollments")
  {
    if HasPrefix(path, "/users") {
      UsersPathIsNotCoursePath(path);
    }
  }

  /** The enrollment backend gets every non-course path that mentions "/enrollments", "/users/..." ones included. */
  lemma ResolveEnrollment(path: string)
    ensures Resolve(path) == Some(EnrollmentService) <==> !IsCoursePath(path) && Contains(path, "/enrollments")
  {
  }

  /** 404 happens exactly when no rule's test holds. */
  lemma ResolveNotFound(path: string)
    ensures Resolve(path) == None <==>
      !IsCoursePath(path) && !HasPrefix(path, "/users") && !Contains(path, "/enrollments")
  {
  }

  /** A "/users" path is always routed somewhere, never to the course backend. */
  lemma UsersPathIsRouted(path: string)
    requires HasPrefix(path, "/users")
    ensures Resolve(path) == Some(UserService) || Resolve(path) == Some(EnrollmentService)
  {
    UsersPathIsNotCoursePath(path);
  }

  /** Worked example: course and series paths. */
  lemma ResolveCourseExamples()
    ensures Resolve("/courses/7") == Some(CourseService)
    ensures Resolve("/series/3") == Some(CourseService)
  {
  }

  /** Worked example: a user path without "/enrollments". */
  lemma ResolveUserExample()
    ensures Resolve("/users/42") == Some(UserService)
  {
    ShorterNotContains("/users/42", "/enrollments");
    assert "/users/42"[..6] == "/users";
    ResolveUser("/users/42");
  }

  /** Worked example: a user's enrollments go to the enrollment backend, not the user backend. */
  lemma ResolveUserEnrollmentsExample()
    ensures Resolve("/users/42/enrollments") == Some(EnrollmentService)
  {
    var p := "/users/42/enrollments";
    assert p[..6] == "/users";
    assert p[9..21] == "/enrollments";
    OccursAtContains(p, "/enrollments", 9);
    ResolveEnrollment(p);
    UsersPathIsNotCoursePath(p);
  }

  /** Worked example: a bare enrollments path. */
  lemma ResolveEnrollmentsExample()
    ensures Resolve("/enrollments") == Some(EnrollmentService)
  {
    var p := "/enrollments";
    assert HasPrefix(p, p);
    assert Contains(p, "/enrollments");
    assert p[1] == 'e';
    assert !IsCoursePath(p);
  }

  /** Worked example: a path no rule matches is a 404. */
  lemma ResolveUnknownExample()
    ensures Resolve("/unknown") == None
  {
    ShorterNotContains("/unknown", "/enrollments");
    assert "/unknown"[1] == 'u' && "/users"[2] == 's' && "/unknown"[2] == 'n';
  }

  /** HTTP methods contain no ':', so distinct (method, path) pairs never share a cache key. */
  lemma CacheKeyInjective(m1: string, p1: string, m2: string, p2: string)
    requires ':' !in m1 && ':' !in m2
    requires CacheKey(m1, p1) == CacheKey(m2, p2)
    ensures m1 == m2 && p1 == p2
  {
  }

  /** A GET's key is "GET:" followed by the path (the query string is not part of it). */
  lemma GetCacheKey(path: string)
    ensures CacheKey("GET", path) == "GET:" + path
    ensures CacheKey("GET", path)[4..] == path
  {
  }
}
