/**
  The legacy `EmailDispatcher`: it turns its connection settings into the
  SMTP properties of a mail session, and `sendMail` builds one MIME message
  and hands it to the transport. The mail library itself (session lookup,
  address parsing, `Transport.send`) is a function `transport` from the
  message built to what the library did with it.
 */
module Dispatcher {

  import opened Wrappers
  import opened JavaStrings
  import opened Mail

  const HostKey := "mail.smtp.host"
  const PortKey := "mail.smtp.port"
  const AuthKey := "mail.smtp.auth"
  const SocketFactoryPortKey := "mail.smtp.socketFactory.port"
  const SocketFactoryClassKey := "mail.smtp.socketFactory.class"
  const StartTlsKey := "mail.smtp.starttls.enable"
  const SslSocketFactory := "javax.net.ssl.SSLSocketFactory"

  /** Both credentials are non-null. */
  predicate HasCredentials(username: Option<string>, password: Option<string>)
  {
    username.Some? && password.Some?
  }

  /**
    The session properties a dispatcher with these settings holds: host and
    port always, `auth` with credentials, the socket-factory pair with SSL,
    STARTTLS with TLS, each entry present on its own condition.
   */
  function SmtpProperties(host: string, port: int, username: Option<string>, password: Option<string>,
                          tls: bool, ssl: bool): map<string, string>
  {
    map[HostKey := host, PortKey := DecimalString(port)] +
    (if HasCredentials(username, password) then map[AuthKey := "true"] else map[]) +
    (if ssl then map[SocketFactoryPortKey := DecimalString(port), SocketFactoryClassKey := SslSocketFactory] else map[]) +
    (if tls then map[StartTlsKey := "true"] else map[])
  }

  /** Which keys are set, and to what, key by key. */
  lemma SmtpPropertiesEntries(host: string, port: int, username: Option<string>, password: Option<string>,
                              tls: bool, ssl: bool)
    ensures var p := SmtpProperties(host, port, username, password, tls, ssl);
      HostKey in p && p[HostKey] == host &&
      PortKey in p && p[PortKey] == DecimalString(port) &&
      (AuthKey in p <==> HasCredentials(username, password)) &&
      (AuthKey in p ==> p[AuthKey] == "true") &&
      (SocketFactoryPortKey in p <==> ssl) && (SocketFactoryClassKey in p <==> ssl) &&
      (ssl ==> p[SocketFactoryPortKey] == DecimalString(port) && p[SocketFactoryClassKey] == SslSocketFactory) &&
      (StartTlsKey in p <==> tls) &&
      (tls ==> p[StartTlsKey] == "true") &&
      p.Keys <= {HostKey, PortKey, AuthKey, SocketFactoryPortKey, SocketFactoryClassKey, StartTlsKey}
  {
  }

  /** The port entry reads back as the configured port number. */
  lemma SmtpPortReadsBack(host: string, port: int, username: Option<string>, password: Option<string>,
                          tls: bool, ssl: bool)
    ensures var s := SmtpProperties(host, port, username, password, tls, ssl)[PortKey];
      s != [] && (s[0] == '-' ==> IsDigits(s[1..])) && (s[0] != '-' ==> IsDigits(s)) &&
      ParseDecimal(s) == port
  {
    DecimalRoundTrip(port);
  }

  /** `PasswordAuthentication(user, password)` returned by the session's authenticator. */
  datatype PasswordAuthentication = PasswordAuthentication(userName: string, password: string)

  /** A mail session: its properties and, for an authenticated one, the credentials it answers with. */
  datatype Session = Session(properties: map<string, string>, authentication: Option<PasswordAuthentication>)

  /** A body and its content type, as passed to `setContent`. */
  datatype Content = Content(body: string, contentType: string)

  datatype MimeMessage = MimeMessage(session: Session, from: string, to: Option<string>, subject: Option<string>,
                                     content: Option<Content>)

  /** What the mail library did with a message: delivered it, or threw. */
  datatype Delivery = Delivered | Raised(error: Throwable)

  /** How `sendMail` ended: it returned, or it threw `error`. */
  datatype SendOutcome = Completed | Threw(error: Throwable)

  /** The session `sendMail` opens: with an authenticator exactly when both credentials are set. */
  function SessionFor(props: map<string, string>, username: Option<string>, password: Option<string>): Session
  {
    if HasCredentials(username, password)
    then Session(props, Some(PasswordAuthentication(username.value, password.value)))
    else Session(props, None)
  }

  /** The content the message ends up with: HTML if there is any, else plain text, else none. */
  function BodyFor(charset: string, bodyPlain: Option<string>, bodyHtml: Option<string>): Option<Content>
  {
    if bodyHtml.Some? then Some(Content(bodyHtml.value, "text/html; charset=" + charset))
    else if bodyPlain.Some? then Some(Content(bodyPlain.value, "text/plain; charset=" + charset))
    else None
  }

  /** The message `sendMail` builds. */
  function MessageFor(props: map<string, string>, username: Option<string>, password: Option<string>, from: string,
                      to: Option<string>, subject: Option<string>, charset: string,
                      bodyPlain: Option<string>, bodyHtml: Option<string>): MimeMessage
  {
    MimeMessage(SessionFor(props, username, password), from, to, subject, BodyFor(charset, bodyPlain, bodyHtml))
  }

  /**
    What `sendMail` lets out for a throwable the library threw: `catch
    (Exception e)` rethrows a runtime exception and wraps a checked one; an
    `Error` is not an `Exception`, so it is not caught and goes out unchanged.
   */
  function Rethrown(e: Throwable): Throwable
  {
    if e.kind != Checked then e
    else Throwable("java.lang.IllegalStateException", Some("Failed to send email"), Runtime, Some(e))
  }

  function OutcomeOf(d: Delivery): SendOutcome
  {
    match d
    case Delivered => Completed
    case Raised(e) => Threw(Rethrown(e))
  }

  /**
    `sendMail` declares no checked exception: whatever it lets out is
    unchecked, either the runtime exception or error thrown, or a runtime
    exception whose cause is the checked one.
   */
  lemma RethrownIsUnchecked(e: Throwable)
    ensures Rethrown(e).kind != Checked
    ensures e.kind != Checked ==> Rethrown(e) == e
    ensures e.kind == Checked ==>
      Rethrown(e).kind == Runtime && Rethrown(e).cause == Some(e) &&
      Rethrown(e).className == "java.lang.IllegalStateException" &&
      Rethrown(e).message == Some("Failed to send email")
  {
  }

  /** The session is authenticated exactly when both credentials are given, and with those credentials. */
  lemma AuthenticatedIffCredentials(props: map<string, string>, username: Option<string>, password: Option<string>)
    ensures var s := SessionFor(props, username, password);
      s.properties == props &&
      (s.authentication.Some? <==> HasCredentials(username, password)) &&
      (s.authentication.Some? ==> s.authentication.value == PasswordAuthentication(username.value, password.value))
  {
  }

  /** The HTML body, set last, wins; the plain body is used only without one; neither means no content. */
  lemma HtmlBodyWins(charset: string, bodyPlain: Option<string>, bodyHtml: Option<string>)
    ensures var c := BodyFor(charset, bodyPlain, bodyHtml);
      (bodyHtml.Some? ==> c == Some(Content(bodyHtml.value, "text/html; charset=" + charset))) &&
      (bodyHtml.None? && bodyPlain.Some? ==> c == Some(Content(bodyPlain.value, "text/plain; charset=" + charset))) &&
      (c.None? <==> bodyHtml.None? && bodyPlain.None?)
  {
  }

  class EmailDispatcher {
    const from: string
    const username: Option<string>
    const password: Option<string>
    const props: map<string, string>

    /** The properties map filled one `setProperty`/`put` at a time, as the constructor does. */
    static method FillProperties(host: string, port: int, username: Option<string>, password: Option<string>,
                                 tls: bool, ssl: bool) returns (p: map<string, string>)
      ensures p == SmtpProperties(host, port, username, password, tls, ssl)
    {
      p := map[];
      p := p[HostKey := host];
      p := p[PortKey := DecimalString(port)];
      ghost var expected := map[HostKey := host, PortKey := DecimalString(port)];
      assert p == expected;
      if username.Some? && password.Some? {
        p := p[AuthKey := "true"];
      }
      expected := expected + (if HasCredentials(username, password) then map[AuthKey := "true"] else map[]);
      assert p == expected;
      if ssl {
        p := p[SocketFactoryPortKey := DecimalString(port)];
        p := p[SocketFactoryClassKey := SslSocketFactory];
      }
      expected := expected +
        (if ssl then map[SocketFactoryPortKey := DecimalString(port), SocketFactoryClassKey := SslSocketFactory] else map[]);
      assert p == expected;
      if tls {
        p := p[StartTlsKey := "true"];
      }
      expected := expected + (if tls then map[StartTlsKey := "true"] else map[]);
      assert p == expected;
    }

    /** The authenticated dispatcher (seven arguments). */
    constructor(smtpHost: string, smtpPort: int, smtpUsername: Option<string>, smtpPassword: Option<string>,
                from: string, tls: bool, ssl: bool)
      ensures this.username == smtpUsername && this.password == smtpPassword && this.from == from
      ensures props == SmtpProperties(smtpHost, smtpPort, smtpUsername, smtpPassword, tls, ssl)
    {
      username := smtpUsername;
      password := smtpPassword;
      this.from := from;
      var p := FillProperties(smtpHost, smtpPort, smtpUsername, smtpPassword, tls, ssl);
      props := p;
    }

    /** The unauthenticated dispatcher (five arguments): the seven-argument one with null credentials. */
    constructor Unauthenticated(smtpHost: string, smtpPort: int, from: string, tls: bool, ssl: bool)
      ensures username == None && password == None && this.from == from
      ensures props == SmtpProperties(smtpHost, smtpPort, None, None, tls, ssl)
      ensures AuthKey !in props
    {
      username := None;
      password := None;
      this.from := from;
      var p := FillProperties(smtpHost, smtpPort, None, None, tls, ssl);
      props := p;
    }

    /**
      `sendMail(to, subject, charset, bodyPlain, bodyHtml)`: opens the
      session, builds the message, setting the plain body and then the HTML
      body, and sends it; a checked exception from the library comes out
      wrapped in an IllegalStateException, while a runtime exception or an
      `Error` goes out as it was thrown.
     */
    method SendMail(to: Option<string>, subject: Option<string>, charset: string,
                    bodyPlain: Option<string>, bodyHtml: Option<string>,
                    transport: MimeMessage -> Delivery) returns (message: MimeMessage, outcome: SendOutcome)
      ensures message == MessageFor(props, username, password, from, to, subject, charset, bodyPlain, bodyHtml)
      ensures outcome == OutcomeOf(transport(message))
      ensures outcome.Threw? ==> outcome.error.kind != Checked
    {
      var session: Session;
      if username.Some? && password.Some? {
        session := Session(props, Some(PasswordAuthentication(username.value, password.value)));
      } else {
        session := Session(props, None);
      }
      message := MimeMessage(session, from, to, subject, None);
      if bodyPlain.Some? {
        message := message.(content := Some(Content(bodyPlain.value, "text/plain; charset=" + charset)));
      }
      if bodyHtml.Some? {
        message := message.(content := Some(Content(bodyHtml.value, "text/html; charset=" + charset)));
      }
      match transport(message)
      case Delivered =>
        outcome := Completed;
      case Raised(e) =>
        if e.kind != Checked {
          outcome := Threw(e);
        } else {
          outcome := Threw(Throwable("java.lang.IllegalStateException", Some("Failed to send email"), Runtime, Some(e)));
        }
    }
  }
}
