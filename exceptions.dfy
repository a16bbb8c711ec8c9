/**
 * The project's exception hierarchy (src/weather_notifier/exceptions.py).
 * An exception is a value: the class it is an instance of, the message that
 * `str(e)` renders, and the status code the routes turn into an HTTP status.
 */
module Exceptions {
  import opened Wrappers

  /** The most derived class an exception was raised as. */
  datatype ExceptionClass = WeatherNotifierError | EntityNotFound

  datatype NotifierException = NotifierException(cls: ExceptionClass, message: string, code: int)
  {
    /** `str(e)`: the message passed to `Exception.__init__`. */
    function Str(): string { message }
  }

  const DefaultCode: int := 500
  const NotFoundCode: int := 404
  const NotFoundSuffix: string := " not found"

  /** `WeatherNotifierException(message, code=500)`. */
  function WeatherNotifierException(message: string, code: int := DefaultCode): (e: NotifierException)
    ensures e.cls == WeatherNotifierError
    ensures e.Str() == message && e.code == code
  {
    NotifierException(WeatherNotifierError, message, code)
  }

  /** `EntityNotFoundException(entity_name)`: a WeatherNotifierException with a fixed suffix and code 404. */
  function EntityNotFoundException(entityName: string): (e: NotifierException)
    ensures e.cls == EntityNotFound && e.code == NotFoundCode
    ensures e.Str() == entityName + NotFoundSuffix
  {
    WeatherNotifierException(entityName + NotFoundSuffix, code := NotFoundCode).(cls := EntityNotFound)
  }

  /** The entity name read back from the message of an EntityNotFoundException, if it is one. */
  function NotFoundEntityName(e: NotifierException): Option<string>
  {
    var n := |e.message| - |NotFoundSuffix|;
    if e.cls == EntityNotFound && n >= 0 && e.message[n..] == NotFoundSuffix
    then Some(e.message[..n])
    else None
  }

  /** Leaving out the code makes it 500. */
  lemma DefaultCodeIs500(message: string)
    ensures WeatherNotifierException(message).code == 500
    ensures WeatherNotifierException(message).Str() == message
  {
  }

  /** The message of EntityNotFoundException(name) determines name: it is the message without " not found". */
  lemma EntityNameRoundTrip(entityName: string)
    ensures NotFoundEntityName(EntityNotFoundException(entityName)) == Some(entityName)
  {
  }

  /** Two not-found exceptions are equal exactly when they name the same entity. */
  lemma EntityNotFoundInjective(a: string, b: string)
    ensures EntityNotFoundException(a) == EntityNotFoundException(b) <==> a == b
  {
    EntityNameRoundTrip(a);
    EntityNameRoundTrip(b);
  }

  /** A plain WeatherNotifierException is never read as a not-found one, whatever its message. */
  lemma PlainExceptionIsNotNotFound(message: string, code: int)
    ensures NotFoundEntityName(WeatherNotifierException(message, code)) == None
  {
  }

  /** The rendering the service test expects for a wrong subscription uuid. */
  lemma WrongUuidMessage()
    ensures EntityNotFoundException("Subscription: clearly-wrong-uuid").Str()
            == "Subscription: clearly-wrong-uuid not found"
    ensures EntityNotFoundException("Subscription: clearly-wrong-uuid").code == 404
  {
  }
}
