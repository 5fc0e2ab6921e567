/**
 * The user-visible side effects of a page handler, recorded in the order the
 * handler issues them: a toast with its title, or a navigation to a route.
 */
module Ui {
  datatype Effect = Toast(title: string) | Navigate(path: string)
}
